/** The admin menu editor (pages/PublishMenu.jsx): a list of sabji entries
    edited by adding from a draft, removing by position, updating a field and
    toggling "special"; loading a previous menu from the history; and
    publishing, which checks the list and then clears it.

    Entries are objects, as in the source: `updateSabji` and `toggleSpecial`
    copy the array but change the entry object itself, and `loadHistoryMenu`
    puts the history's own entry objects into the editor. */
module PublishMenu {
  import opened Domain
  import opened Seqs
  import opened Text

  const DefaultMealType := "lunch"
  const DefaultBasePrice := 120
  const HistoryPreviewSize := 3

  /** A sabji entry of the editor or of a history menu. */
  class SabjiEntry {
    var name: string
    var imageUrl: string
    var isSpecial: bool

    constructor (s: Sabji)
      ensures Value() == s
    {
      name := s.name;
      imageUrl := s.imageUrl;
      isSpecial := s.isSpecial;
    }

    function Value(): Sabji
      reads this
    {
      Sabji(name, imageUrl, isSpecial)
    }
  }

  /** The values of a list of entries. */
  function Values(entries: seq<SabjiEntry>): (r: seq<Sabji>)
    reads entries
    ensures |r| == |entries|
    ensures forall i :: 0 <= i < |entries| ==> r[i] == entries[i].Value()
  {
    seq(|entries|, i requires 0 <= i < |entries| reads entries => entries[i].Value())
  }

  /** A menu of the history list, holding its entry objects. */
  datatype HistoryMenu = HistoryMenu(mealType: string, basePrice: Option<int>,
                                     listOfSabjis: Option<seq<SabjiEntry>>)

  /** The entries of one history menu. */
  function EntriesOfMenu(m: HistoryMenu): set<SabjiEntry> {
    if m.listOfSabjis.Some? then set e | e in m.listOfSabjis.value else {}
  }

  /** The entries of all history menus. */
  function EntriesOf(ms: seq<HistoryMenu>): set<SabjiEntry> {
    set k, e | 0 <= k < |ms| && ms[k].listOfSabjis.Some? && e in ms[k].listOfSabjis.value :: e
  }

  /** The value of a history menu, as the history cards show it. */
  function MenuValue(m: HistoryMenu): Menu
    reads EntriesOfMenu(m)
  {
    Menu(m.mealType, m.basePrice, if m.listOfSabjis.Some? then Some(Values(m.listOfSabjis.value)) else None)
  }

  function MenusValue(ms: seq<HistoryMenu>): (r: seq<Menu>)
    reads EntriesOf(ms)
    ensures |r| == |ms|
    ensures forall k :: 0 <= k < |ms| ==> r[k] == MenuValue(ms[k])
  {
    seq(|ms|, k requires 0 <= k < |ms| reads EntriesOf(ms) => MenuValue(ms[k]))
  }

  /** No entry object occurs twice in a list. */
  predicate Distinct(entries: seq<SabjiEntry>) {
    forall i, j :: 0 <= i < j < |entries| ==> entries[i] != entries[j]
  }

  lemma DistinctAppend(entries: seq<SabjiEntry>, e: SabjiEntry)
    requires Distinct(entries) && e !in entries
    ensures Distinct(entries + [e])
  {
    var r := entries + [e];
    forall i, j | 0 <= i < j < |r|
      ensures r[i] != r[j]
    {
      if j == |entries| {
        assert r[i] == entries[i];
      }
    }
  }

  /** No history menu repeats an entry object. */
  predicate HistoryDistinct(ms: seq<HistoryMenu>) {
    forall k :: 0 <= k < |ms| && ms[k].listOfSabjis.Some? ==> Distinct(ms[k].listOfSabjis.value)
  }

  /** The value of the list after `toggleSpecial(index)`. */
  function ToggleAt(values: seq<Sabji>, index: nat): (r: seq<Sabji>)
    requires index < |values|
    ensures |r| == |values| && r[index].isSpecial == !values[index].isSpecial
    ensures r[index].(isSpecial := values[index].isSpecial) == values[index]
    ensures forall i :: 0 <= i < |values| && i != index ==> r[i] == values[i]
  {
    values[index := values[index].(isSpecial := !values[index].isSpecial)]
  }

  /** Toggling the same entry twice restores the list. */
  lemma ToggleTwiceRestores(values: seq<Sabji>, index: nat)
    requires index < |values|
    ensures ToggleAt(ToggleAt(values, index), index) == values
  {
    var twice := ToggleAt(ToggleAt(values, index), index);
    assert twice[index] == values[index];
  }

  /** The field `updateSabji` sets, with its new value. */
  datatype FieldValue = Name(name: string) | ImageUrl(url: string) | IsSpecial(flag: bool)

  function WithField(s: Sabji, f: FieldValue): (r: Sabji)
    ensures f.Name? ==> r == s.(name := f.name)
    ensures f.ImageUrl? ==> r == s.(imageUrl := f.url)
    ensures f.IsSpecial? ==> r == s.(isSpecial := f.flag)
  {
    match f
    case Name(n) => s.(name := n)
    case ImageUrl(u) => s.(imageUrl := u)
    case IsSpecial(b) => s.(isSpecial := b)
  }

  /** Publishing needs every entry to have a non-empty name and image. */
  predicate Complete(values: seq<Sabji>) {
    forall i :: 0 <= i < |values| ==> values[i].name != "" && values[i].imageUrl != ""
  }

  /** The image is labelled optional in the add dialog, and an entry without
      one is accepted by `addSabji`, yet it blocks publishing. */
  lemma ImageOptionalButRequired()
    ensures !IsBlank("Aloo")
    ensures !Complete([Sabji("Aloo", "", false)])
  {
    assert !IsSpace("Aloo"[0]);
    assert [Sabji("Aloo", "", false)][0].imageUrl == "";
  }

  /** The body of the publish request. */
  datatype MenuPayload = MenuPayload(mealType: string, basePrice: Option<int>,
                                     listOfSabjis: seq<Sabji>, isNewMeal: bool)

  /** What a history card shows of a menu's list: the first three names and
      the "+N more" count, nothing when the list is missing. */
  function HistoryCardPreview(m: Menu): (p: Option<Preview<Sabji>>)
    ensures p.None? <==> m.listOfSabjis.None?
    ensures p.Some? ==>
      && |p.value.shown| <= HistoryPreviewSize
      && p.value.shown <= m.listOfSabjis.value
      && (p.value.more > 0 <==> |m.listOfSabjis.value| > HistoryPreviewSize)
      && |p.value.shown| + p.value.more == |m.listOfSabjis.value|
    ensures p.Some? ==>
      var list := m.listOfSabjis.value;
      && (|list| > HistoryPreviewSize ==>
            p.value.shown == list[..HistoryPreviewSize] && p.value.more == |list| - HistoryPreviewSize)
      && (|list| <= HistoryPreviewSize ==> p.value.shown == list && p.value.more == 0)
  {
    if m.listOfSabjis.None? then None else Some(PreviewOf(m.listOfSabjis.value, HistoryPreviewSize))
  }

  class PublishMenuPage {
    var mealType: string
    var basePrice: Option<int>
    var sabjis: seq<SabjiEntry>
    var menuHistory: seq<HistoryMenu>
    var newSabji: Sabji
    var showModal: bool
    var showHistorySection: bool
    var saveAsNewHistory: bool

    /** Entry objects are never repeated within the editor's list. */
    ghost predicate Valid()
      reads this`sabjis
    {
      Distinct(sabjis)
    }

    /** The editor's entries are not shared with the history. */
    ghost predicate Separate()
      reads this`sabjis, this`menuHistory
    {
      forall i :: 0 <= i < |sabjis| ==> sabjis[i] !in EntriesOf(menuHistory)
    }

    /** The editor's list, as values. */
    function Contents(): seq<Sabji>
      reads this`sabjis, sabjis
    {
      Values(sabjis)
    }

    /** The history, as values. */
    function History(): seq<Menu>
      reads this`menuHistory, EntriesOf(menuHistory)
    {
      MenusValue(menuHistory)
    }

    /** Mounting with the fetched history. */
    constructor (history: seq<HistoryMenu>)
      ensures Valid() && Separate()
      ensures mealType == DefaultMealType && basePrice == Some(DefaultBasePrice) && sabjis == []
      ensures menuHistory == history && newSabji == Sabji("", "", false)
      ensures !showModal && !showHistorySection && saveAsNewHistory
    {
      mealType := DefaultMealType;
      basePrice := Some(DefaultBasePrice);
      sabjis := [];
      menuHistory := history;
      newSabji := Sabji("", "", false);
      showModal := false;
      showHistorySection := false;
      saveAsNewHistory := true;
    }

    method OpenModal()
      modifies this`newSabji, this`showModal
      ensures newSabji == Sabji("", "", false) && showModal
    {
      newSabji := Sabji("", "", false);
      showModal := true;
    }

    method EditDraft(draft: Sabji)
      modifies this`newSabji
      ensures newSabji == draft
    {
      newSabji := draft;
    }

    /** `addSabji()`: a draft whose name is blank is refused; otherwise a
        copy of the draft goes at the end and the dialog closes with a reset
        draft. */
    method AddSabji() returns (added: bool)
      requires Valid()
      modifies this`sabjis, this`newSabji, this`showModal
      ensures Valid()
      ensures added <==> !IsBlank(old(newSabji).name)
      ensures added ==>
        Contents() == old(Contents()) + [old(newSabji)]
        && fresh(sabjis[|sabjis| - 1]) && newSabji == Sabji("", "", false) && !showModal
      ensures !added ==>
        sabjis == old(sabjis) && newSabji == old(newSabji) && showModal == old(showModal)
    {
      if IsBlank(newSabji.name) {
        return false;
      }
      AppendCopy(newSabji);
      showModal := false;
      newSabji := Sabji("", "", false);
      added := true;
    }

    /** `setSabjis([...sabjis, { ...s }])`: a new entry object holding `s`
        goes at the end. */
    method AppendCopy(s: Sabji)
      requires Valid()
      modifies this`sabjis
      ensures Valid()
      ensures Contents() == old(Contents()) + [s]
      ensures |sabjis| == |old(sabjis)| + 1 && sabjis[..|old(sabjis)|] == old(sabjis)
      ensures fresh(sabjis[|sabjis| - 1])
      ensures old(Separate()) ==> Separate()
    {
      ghost var before := Values(sabjis);
      var entry := NewEntry(s, EntriesOf(menuHistory));
      assert Values(sabjis) == before;
      DistinctAppend(sabjis, entry);
      sabjis := sabjis + [entry];
      assert Values(sabjis) == before + [entry.Value()];
    }

    /** `removeSabji(index)`: the entry at `index` is dropped and the others
        keep their order; an index outside the list changes nothing. */
    method RemoveSabji(index: int)
      requires Valid()
      modifies this`sabjis
      ensures Valid()
      ensures 0 <= index < |old(sabjis)| ==>
        Contents() == old(Contents())[..index] + old(Contents())[index + 1..]
      ensures !(0 <= index < |old(sabjis)|) ==> sabjis == old(sabjis)
      ensures old(Separate()) ==> Separate()
    {
      if 0 <= index < |sabjis| {
        sabjis := sabjis[..index] + sabjis[index + 1..];
      }
    }

    /** `updateSabji(index, field, value)`: sets one field of the entry at
        `index`, in the entry object itself. */
    method UpdateSabji(index: int, f: FieldValue)
      requires Valid() && 0 <= index < |sabjis|
      modifies sabjis[index]
      ensures Valid()
      ensures Contents() == old(Contents())[index := WithField(old(Contents())[index], f)]
      ensures old(Separate()) ==> History() == old(History())
    {
      var entry := sabjis[index];
      match f {
        case Name(n) => entry.name := n;
        case ImageUrl(u) => entry.imageUrl := u;
        case IsSpecial(b) => entry.isSpecial := b;
      }
      assert forall i :: 0 <= i < |sabjis| && i != index ==> sabjis[i] != entry;
    }

    /** `toggleSpecial(index)`: flips `isSpecial` of the entry at `index`, in
        the entry object itself. */
    method ToggleSpecial(index: int)
      requires Valid() && 0 <= index < |sabjis|
      modifies sabjis[index]
      ensures Valid()
      ensures Contents() == ToggleAt(old(Contents()), index)
      ensures old(Separate()) ==> History() == old(History())
    {
      var entry := sabjis[index];
      entry.isSpecial := !entry.isSpecial;
      assert forall i :: 0 <= i < |sabjis| && i != index ==> sabjis[i] != entry;
    }

    /** The history as written: the loaded menu's own entry objects become the
        editor's list, so later in-place edits reach the history. */
    method LoadHistoryMenuAsWritten(k: int)
      requires HistoryDistinct(menuHistory) && 0 <= k < |menuHistory|
      modifies this`mealType, this`basePrice, this`sabjis, this`showHistorySection, this`saveAsNewHistory
      ensures Valid()
      ensures mealType == menuHistory[k].mealType && basePrice == menuHistory[k].basePrice
      ensures menuHistory[k].listOfSabjis.Some? ==> sabjis == menuHistory[k].listOfSabjis.value
      ensures menuHistory[k].listOfSabjis.None? ==> sabjis == []
      ensures Contents() == (if History()[k].listOfSabjis.Some? then History()[k].listOfSabjis.value else [])
      ensures !showHistorySection && !saveAsNewHistory
    {
      var menu := menuHistory[k];
      mealType := menu.mealType;
      basePrice := menu.basePrice;
      sabjis := if menu.listOfSabjis.Some? then menu.listOfSabjis.value else [];
      showHistorySection := false;
      saveAsNewHistory := false;
    }

    /** The history load as intended: the editor gets copies of the menu's
        entries, so the history is left alone by later edits. */
    method LoadHistoryMenu(k: int)
      requires 0 <= k < |menuHistory|
      modifies this`mealType, this`basePrice, this`sabjis, this`showHistorySection, this`saveAsNewHistory
      ensures Valid() && Separate()
      ensures forall i :: 0 <= i < |sabjis| ==> fresh(sabjis[i])
      ensures mealType == menuHistory[k].mealType && basePrice == menuHistory[k].basePrice
      ensures Contents() == (if History()[k].listOfSabjis.Some? then History()[k].listOfSabjis.value else [])
      ensures !showHistorySection && !saveAsNewHistory
    {
      var menu := menuHistory[k];
      var source := if menu.listOfSabjis.Some? then menu.listOfSabjis.value else [];
      ghost var history := MenusValue(menuHistory);
      assert Values(source) == (if history[k].listOfSabjis.Some? then history[k].listOfSabjis.value else []);
      var copies := CopyEntries(source, menuHistory);
      mealType := menu.mealType;
      basePrice := menu.basePrice;
      sabjis := copies;
      showHistorySection := false;
      saveAsNewHistory := false;
    }

    /** `publishMenu()`, with `success` the outcome of the request. Nothing is
        sent for an empty list or one with an entry lacking a name or an
        image; otherwise the menu is sent, and a success clears the list and
        turns "save as new history" back on. */
    method Publish(success: bool) returns (sent: Option<MenuPayload>)
      modifies this`sabjis, this`saveAsNewHistory
      ensures sent.Some? <==> |old(Contents())| > 0 && Complete(old(Contents()))
      ensures sent.Some? ==>
        sent.value == MenuPayload(mealType, basePrice, old(Contents()), old(saveAsNewHistory))
      ensures sent.Some? && success ==> sabjis == [] && saveAsNewHistory
      ensures !(sent.Some? && success) ==>
        sabjis == old(sabjis) && saveAsNewHistory == old(saveAsNewHistory)
    {
      var values := Values(sabjis);
      if |sabjis| == 0 {
        return None;
      }
      if !Complete(values) {
        return None;
      }
      sent := Some(MenuPayload(mealType, basePrice, values, saveAsNewHistory));
      if success {
        sabjis := [];
        saveAsNewHistory := true;
      }
    }
  }

  /** A new entry object holding `s`, not one of the existing objects
      `avoid`. */
  method NewEntry(s: Sabji, ghost avoid: set<SabjiEntry>) returns (e: SabjiEntry)
    ensures fresh(e) && e.Value() == s && e !in avoid
  {
    e := new SabjiEntry(s);
  }

  /** New entry objects holding the values of `source`, in order; none of
      them is an entry of the history `ms`, whose value stays as it was. */
  method CopyEntries(source: seq<SabjiEntry>, ghost ms: seq<HistoryMenu>) returns (copies: seq<SabjiEntry>)
    ensures Values(copies) == Values(source)
    ensures Distinct(copies)
    ensures forall j :: 0 <= j < |copies| ==> fresh(copies[j]) && copies[j] !in EntriesOf(ms)
    ensures MenusValue(ms) == old(MenusValue(ms))
  {
    copies := [];
    var i := 0;
    while i < |source|
      invariant 0 <= i <= |source| && |copies| == i
      invariant forall j :: 0 <= j < i ==> fresh(copies[j]) && copies[j] !in EntriesOf(ms)
      invariant MenusValue(ms) == old(MenusValue(ms))
      invariant Distinct(copies)
      invariant forall j :: 0 <= j < i ==> copies[j].Value() == source[j].Value()
    {
      var entry := NewEntry(source[i].Value(), EntriesOf(ms));
      DistinctAppend(copies, entry);
      copies := copies + [entry];
      i := i + 1;
    }
  }

  /** As written, loading a history menu and then marking its sabji special
      marks it special in the history too: the card's value changes. */
  method LoadThenToggleChangesHistory() returns (before: Menu, after: Menu)
    ensures before.listOfSabjis == Some([Sabji("Paneer", "paneer.jpg", false)])
    ensures after.listOfSabjis == Some([Sabji("Paneer", "paneer.jpg", true)])
  {
    var entry := new SabjiEntry(Sabji("Paneer", "paneer.jpg", false));
    var history := [HistoryMenu("lunch", Some(120), Some([entry]))];
    var page := new PublishMenuPage(history);
    assert Values([entry]) == [Sabji("Paneer", "paneer.jpg", false)];
    before := page.History()[0];
    assert before.listOfSabjis == Some(Values([entry]));
    page.LoadHistoryMenuAsWritten(0);
    assert page.sabjis == [entry];
    page.ToggleSpecial(0);
    assert entry.Value() == Sabji("Paneer", "paneer.jpg", true);
    assert Values([entry]) == [Sabji("Paneer", "paneer.jpg", true)];
    after := page.History()[0];
    assert after.listOfSabjis == Some(Values([entry]));
  }

  /** With the copying load, the same steps leave the history as it was. */
  method LoadCopyThenToggleKeepsHistory() returns (before: Menu, after: Menu)
    ensures before.listOfSabjis == Some([Sabji("Paneer", "paneer.jpg", false)])
    ensures after == before
  {
    var entry := new SabjiEntry(Sabji("Paneer", "paneer.jpg", false));
    var history := [HistoryMenu("lunch", Some(120), Some([entry]))];
    var page := new PublishMenuPage(history);
    assert Values([entry]) == [Sabji("Paneer", "paneer.jpg", false)];
    before := page.History()[0];
    assert before.listOfSabjis == Some(Values([entry]));
    page.LoadHistoryMenu(0);
    page.ToggleSpecial(0);
    after := page.History()[0];
  }
}
