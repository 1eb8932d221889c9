/**
 * The editor's outline panel: a two-level section tree with word counts and
 * statuses, the set of expanded sections, and the totals shown in the panel
 * header.
 */
module OutlinePanel {
  import opened Wrappers
  import Seqs

  datatype Status = NotStarted | InProgress | Complete

  /** A section; `children` may be absent, and a child may itself carry children. */
  datatype Section = Section(
    id: string,
    title: string,
    status: Status,
    wordCount: int,
    children: Option<seq<Section>>)

  function Leaf(id: string, title: string, status: Status, wordCount: int): Section {
    Section(id, title, status, wordCount, None)
  }

  /** The outline every editor starts with. */
  function DefaultOutline(): seq<Section> {
    [ Section("abstract", "Abstract", InProgress, 150, Some([])),
      Section("introduction", "Introduction", InProgress, 850, Some([
        Leaf("intro-background", "Background", Complete, 400),
        Leaf("intro-problem", "Problem Statement", Complete, 300),
        Leaf("intro-objectives", "Research Objectives", InProgress, 150)])),
      Section("literature-review", "Literature Review", NotStarted, 0, Some([
        Leaf("lit-theoretical", "Theoretical Framework", NotStarted, 0),
        Leaf("lit-previous", "Previous Studies", NotStarted, 0),
        Leaf("lit-gaps", "Research Gaps", NotStarted, 0)])),
      Section("methodology", "Methodology", NotStarted, 0, Some([
        Leaf("method-design", "Research Design", NotStarted, 0),
        Leaf("method-participants", "Participants", NotStarted, 0),
        Leaf("method-procedure", "Procedure", NotStarted, 0),
        Leaf("method-analysis", "Data Analysis", NotStarted, 0)])),
      Section("results", "Results", NotStarted, 0, Some([])),
      Section("discussion", "Discussion", NotStarted, 0, Some([
        Leaf("discussion-interpretation", "Interpretation", NotStarted, 0),
        Leaf("discussion-implications", "Implications", NotStarted, 0),
        Leaf("discussion-limitations", "Limitations", NotStarted, 0)])),
      Section("conclusion", "Conclusion", NotStarted, 0, Some([])),
      Section("references", "References", NotStarted, 0, Some([])) ]
  }

  // ----- Expanded sections -----

  /** `toggleExpanded(id)` on a copy of the set: `id` changes membership, every other id keeps it. */
  function Toggle(expanded: set<string>, id: string): (r: set<string>)
    ensures id in r <==> id !in expanded
    ensures forall other :: other != id ==> (other in r <==> other in expanded)
  {
    if id in expanded then expanded - {id} else expanded + {id}
  }

  /** Toggling the same section twice restores the set. */
  lemma ToggleTwice(expanded: set<string>, id: string)
    ensures Toggle(Toggle(expanded, id), id) == expanded
  {
  }

  /** Toggles of two different sections do not interfere. */
  lemma TogglesCommute(expanded: set<string>, a: string, b: string)
    ensures Toggle(Toggle(expanded, a), b) == Toggle(Toggle(expanded, b), a)
  {
  }

  /** `section.children && section.children.length > 0`. */
  predicate HasChildren(s: Section) {
    s.children.Some? && |s.children.value| > 0
  }

  // ----- Totals -----

  /** The direct children's word counts; their own children are not looked at. */
  function ChildWords(children: seq<Section>): int {
    if children == [] then 0 else children[0].wordCount + ChildWords(children[1..])
  }

  /** A top-level section's words: its own count plus its direct children's. */
  function SectionWords(s: Section): int {
    s.wordCount + (if s.children.Some? then ChildWords(s.children.value) else 0)
  }

  /** `totalWords`. */
  function TotalWords(outline: seq<Section>): int {
    if outline == [] then 0 else SectionWords(outline[0]) + TotalWords(outline[1..])
  }

  /** A section without children contributes only its own count. */
  lemma ChildlessSectionWords(s: Section)
    requires !HasChildren(s)
    ensures SectionWords(s) == s.wordCount
  {
  }

  /** The total of two outlines put together is the sum of their totals. */
  lemma {:induction false} TotalWordsAppend(a: seq<Section>, b: seq<Section>)
    ensures TotalWords(a + b) == TotalWords(a) + TotalWords(b)
  {
    if a == [] {
      assert a + b == b;
    } else {
      assert (a + b)[1..] == a[1..] + b;
      TotalWordsAppend(a[1..], b);
    }
  }

  /** The section with its children's own children removed. */
  function Prune(s: Section): Section {
    if s.children.Some? then s.(children := Some(PruneChildren(s.children.value))) else s
  }

  function PruneChildren(children: seq<Section>): (r: seq<Section>)
    ensures |r| == |children|
    ensures forall i :: 0 <= i < |r| ==> r[i] == children[i].(children := None)
  {
    if children == [] then [] else [children[0].(children := None)] + PruneChildren(children[1..])
  }

  function PruneAll(outline: seq<Section>): (r: seq<Section>)
    ensures |r| == |outline|
    ensures forall i :: 0 <= i < |r| ==> r[i] == Prune(outline[i])
  {
    if outline == [] then [] else [Prune(outline[0])] + PruneAll(outline[1..])
  }

  lemma {:induction false} ChildWordsPruned(children: seq<Section>)
    ensures ChildWords(PruneChildren(children)) == ChildWords(children)
  {
    if children != [] {
      ChildWordsPruned(children[1..]);
      assert PruneChildren(children)[1..] == PruneChildren(children[1..]);
    }
  }

  /** Grandchildren do not count: removing them leaves the total unchanged. */
  lemma {:induction false} TotalWordsIgnoresGrandchildren(outline: seq<Section>)
    ensures TotalWords(PruneAll(outline)) == TotalWords(outline)
  {
    if outline != [] {
      var s := outline[0];
      if s.children.Some? {
        ChildWordsPruned(s.children.value);
      }
      assert SectionWords(Prune(s)) == SectionWords(s);
      TotalWordsIgnoresGrandchildren(outline[1..]);
      assert PruneAll(outline)[1..] == PruneAll(outline[1..]);
    }
  }

  predicate IsComplete(s: Section) {
    s.status == Complete
  }

  /** `completedSections`: top-level sections marked complete; never more than there are sections. */
  function CompletedSections(outline: seq<Section>): (n: nat)
    ensures n <= |outline|
  {
    |Seqs.Filter(outline, IsComplete)|
  }

  /** The default outline has 1850 words and none of its 8 sections complete. */
  lemma DefaultOutlineTotals()
    ensures TotalWords(DefaultOutline()) == 1850
    ensures |DefaultOutline()| == 8 && CompletedSections(DefaultOutline()) == 0
  {
    var d := DefaultOutline();
    DefaultSectionWords();
    assert d == d[..2] + d[2..];
    TotalWordsAppend(d[..2], d[2..]);
    assert TotalWords(d[..2]) == 1850 by {
      assert d[..2][1..] == [d[1]];
    }
    TotalWordsZero(d[2..]);
    DefaultNoneComplete();
  }

  lemma DefaultSectionWords()
    ensures SectionWords(DefaultOutline()[0]) == 150
    ensures SectionWords(DefaultOutline()[1]) == 1700
    ensures forall i :: 2 <= i < 8 ==> SectionWords(DefaultOutline()[i]) == 0
  {
    var d := DefaultOutline();
    var c := d[1].children.value;
    assert ChildWords(c[2..]) == 150;
    assert ChildWords(c[1..]) == 450;
    ZeroWords(d[2]);
    ZeroWords(d[3]);
    ZeroWords(d[4]);
    ZeroWords(d[5]);
    ZeroWords(d[6]);
    ZeroWords(d[7]);
  }

  lemma DefaultNoneComplete()
    ensures |DefaultOutline()| == 8 && CompletedSections(DefaultOutline()) == 0
  {
    Seqs.FilterNone(DefaultOutline(), IsComplete);
  }

  lemma {:induction false} TotalWordsZero(outline: seq<Section>)
    requires forall i :: 0 <= i < |outline| ==> SectionWords(outline[i]) == 0
    ensures TotalWords(outline) == 0
  {
    if outline != [] {
      TotalWordsZero(outline[1..]);
    }
  }

  /** A section whose own and children's counts are all zero has no words. */
  lemma ZeroWords(s: Section)
    requires s.wordCount == 0
    requires s.children.Some? ==> forall i :: 0 <= i < |s.children.value| ==> s.children.value[i].wordCount == 0
    ensures SectionWords(s) == 0
  {
    if s.children.Some? {
      ChildWordsZero(s.children.value);
    }
  }

  lemma {:induction false} ChildWordsZero(children: seq<Section>)
    requires forall i :: 0 <= i < |children| ==> children[i].wordCount == 0
    ensures ChildWords(children) == 0
  {
    if children != [] {
      ChildWordsZero(children[1..]);
    }
  }

  class Panel {
    var expanded: set<string>
    var outline: seq<Section>

    constructor()
      ensures expanded == {"introduction"} && outline == DefaultOutline()
    {
      expanded := {"introduction"};
      outline := DefaultOutline();
    }

    /** `toggleExpanded`: copy the set, add or delete the id, store the copy. */
    method ToggleExpanded(id: string)
      modifies this
      ensures expanded == Toggle(old(expanded), id)
      ensures outline == old(outline)
    {
      var next := expanded;
      if id in next {
        next := next - {id};
      } else {
        next := next + {id};
      }
      expanded := next;
    }
  }
}
