/**
 * The dashboard's paper registry: the `Paper` record and its stored JSON form
 * under `researchflow_papers`, seeding with two sample papers, creating a
 * paper from the dialog's form, the search filter, the progress colour
 * buckets and the completed / in-progress counts.
 */
module Dashboard {
  import opened Wrappers
  import opened Text
  import Seqs
  import opened Json
  import Storage
  import CreatePaperModal

  /** The storage key of the paper list. */
  const PapersKey := "researchflow_papers"

  /** A paper as listed on the dashboard; `dueDate` may be absent. */
  datatype Paper = Paper(
    id: string,
    title: string,
    topic: string,
    kind: string,
    createdAt: string,
    lastModified: string,
    progress: int,
    dueDate: Option<string>,
    wordCount: int)

  // ----- Stored form -----

  /** The members `JSON.stringify` writes for a paper, in declaration order; an absent due date is left out. */
  function PaperJson(p: Paper): Json {
    JObj(
      [ Member("id", JStr(p.id)), Member("title", JStr(p.title)), Member("topic", JStr(p.topic)),
        Member("type", JStr(p.kind)), Member("createdAt", JStr(p.createdAt)),
        Member("lastModified", JStr(p.lastModified)), Member("progress", JNum(p.progress)) ]
      + (if p.dueDate.Some? then [Member("dueDate", JStr(p.dueDate.value))] else [])
      + [ Member("wordCount", JNum(p.wordCount)) ])
  }

  /** Reading a paper back from a parsed object by property name. */
  function PaperFromJson(j: Json): Option<Paper> {
    match j
    case JObj(ms) =>
      var id, title, topic := StrField(ms, "id"), StrField(ms, "title"), StrField(ms, "topic");
      var kind, created, modified := StrField(ms, "type"), StrField(ms, "createdAt"), StrField(ms, "lastModified");
      var progress, words := NumField(ms, "progress"), NumField(ms, "wordCount");
      var due: Option<Option<string>> :=
        match Lookup(ms, "dueDate")
        case None => Some(None)
        case Some(JStr(d)) => Some(Some(d))
        case Some(_) => None;
      if && id.Some? && title.Some? && topic.Some? && kind.Some? && created.Some?
         && modified.Some? && progress.Some? && words.Some? && due.Some?
      then Some(Paper(id.value, title.value, topic.value, kind.value, created.value,
        modified.value, progress.value, due.value, words.value))
      else None
    case _ => None
  }

  function PapersJson(ps: seq<Paper>): (items: seq<Json>)
    ensures |items| == |ps|
  {
    if ps == [] then [] else [PaperJson(ps[0])] + PapersJson(ps[1..])
  }

  function PapersFromJson(items: seq<Json>): (r: Option<seq<Paper>>)
    ensures r.Some? ==> |r.value| == |items|
  {
    if items == [] then Some([])
    else match (PaperFromJson(items[0]), PapersFromJson(items[1..]))
      case (Some(p), Some(ps)) => Some([p] + ps)
      case _ => None
  }

  /** `JSON.stringify(papers)`. */
  function EncodePapers(ps: seq<Paper>): string {
    Stringify(JArr(PapersJson(ps)))
  }

  /** `JSON.parse(saved)` read as a paper list; `None` where parsing would throw or the shape is wrong. */
  function DecodePapers(s: string): Option<seq<Paper>> {
    match Parse(s)
    case Some(JArr(items)) => PapersFromJson(items)
    case _ => None
  }

  /** Every key of a stored paper is written once, so each reads back its own value. */
  lemma PaperRoundTrip(p: Paper)
    ensures PaperFromJson(PaperJson(p)) == Some(p)
  {
    var ms := PaperJson(p).members;
    PaperStrings(p, ms);
    PaperNumbers(p, ms);
    PaperDueDate(p, ms);
  }

  lemma PaperKeys(p: Paper, ms: seq<Member>)
    requires ms == PaperJson(p).members
    ensures |ms| == if p.dueDate.Some? then 9 else 8
    ensures ms[0] == Member("id", JStr(p.id)) && ms[1] == Member("title", JStr(p.title))
    ensures ms[2] == Member("topic", JStr(p.topic)) && ms[3] == Member("type", JStr(p.kind))
    ensures ms[4] == Member("createdAt", JStr(p.createdAt))
    ensures ms[5] == Member("lastModified", JStr(p.lastModified))
    ensures ms[6] == Member("progress", JNum(p.progress))
    ensures p.dueDate.Some? ==> ms[7] == Member("dueDate", JStr(p.dueDate.value))
    ensures ms[|ms| - 1] == Member("wordCount", JNum(p.wordCount))
  {
  }

  lemma PaperStrings(p: Paper, ms: seq<Member>)
    requires ms == PaperJson(p).members
    ensures StrField(ms, "id") == Some(p.id) && StrField(ms, "title") == Some(p.title)
    ensures StrField(ms, "topic") == Some(p.topic) && StrField(ms, "type") == Some(p.kind)
    ensures StrField(ms, "createdAt") == Some(p.createdAt)
    ensures StrField(ms, "lastModified") == Some(p.lastModified)
  {
    PaperIdTitle(p, ms);
    PaperTopicType(p, ms);
    PaperDates(p, ms);
  }

  lemma PaperIdTitle(p: Paper, ms: seq<Member>)
    requires ms == PaperJson(p).members
    ensures StrField(ms, "id") == Some(p.id) && StrField(ms, "title") == Some(p.title)
  {
    PaperKeys(p, ms);
    ReadString(ms, 0, p.id);
    ReadString(ms, 1, p.title);
  }

  lemma PaperTopicType(p: Paper, ms: seq<Member>)
    requires ms == PaperJson(p).members
    ensures StrField(ms, "topic") == Some(p.topic) && StrField(ms, "type") == Some(p.kind)
  {
    PaperKeys(p, ms);
    ReadString(ms, 2, p.topic);
    ReadString(ms, 3, p.kind);
  }

  lemma PaperDates(p: Paper, ms: seq<Member>)
    requires ms == PaperJson(p).members
    ensures StrField(ms, "createdAt") == Some(p.createdAt)
    ensures StrField(ms, "lastModified") == Some(p.lastModified)
  {
    PaperKeys(p, ms);
    ReadString(ms, 4, p.createdAt);
    ReadString(ms, 5, p.lastModified);
  }

  lemma PaperNumbers(p: Paper, ms: seq<Member>)
    requires ms == PaperJson(p).members
    ensures NumField(ms, "progress") == Some(p.progress)
    ensures NumField(ms, "wordCount") == Some(p.wordCount)
  {
    PaperKeys(p, ms);
    LookupLast(ms, 6);
    LookupLast(ms, |ms| - 1);
  }

  lemma PaperDueDate(p: Paper, ms: seq<Member>)
    requires ms == PaperJson(p).members
    ensures Lookup(ms, "dueDate") == if p.dueDate.Some? then Some(JStr(p.dueDate.value)) else None
  {
    PaperKeys(p, ms);
    if p.dueDate.Some? {
      LookupLast(ms, 7);
    }
  }

  lemma {:induction false} PapersRoundTrip(ps: seq<Paper>)
    ensures PapersFromJson(PapersJson(ps)) == Some(ps)
  {
    if ps != [] {
      PaperRoundTrip(ps[0]);
      PapersRoundTrip(ps[1..]);
      DecodeCons(PaperJson(ps[0]), PapersJson(ps[1..]), ps[0], ps[1..]);
      assert [ps[0]] + ps[1..] == ps;
    }
  }

  lemma DecodeCons(x: Json, rest: seq<Json>, p: Paper, ps: seq<Paper>)
    requires PaperFromJson(x) == Some(p) && PapersFromJson(rest) == Some(ps)
    ensures PapersFromJson([x] + rest) == Some([p] + ps)
  {
    assert ([x] + rest)[1..] == rest;
  }

  /** What is stored reads back as the same list. */
  lemma DecodeEncodePapers(ps: seq<Paper>)
    ensures DecodePapers(EncodePapers(ps)) == Some(ps)
  {
    ParseStringify(JArr(PapersJson(ps)));
    PapersRoundTrip(ps);
  }

  // ----- The registry's pure parts -----

  /** The two sample papers stored when nothing is saved yet. */
  function SamplePapers(): seq<Paper> {
    [ Paper("1", "The Impact of AI on Modern Education Systems", "Educational Technology",
        "Research Paper", "2024-01-15", "2024-01-20", 65, Some("2024-02-15"), 3500),
      Paper("2", "Climate Change Adaptation Strategies", "Environmental Science",
        "Literature Review", "2024-01-10", "2024-01-18", 30, Some("2024-03-01"), 1200) ]
  }

  /**
   * The paper `handleCreatePaper` builds. `id` stands for `Date.now()`, and the
   * two timestamps for the two `new Date().toISOString()` calls; each date is
   * the timestamp cut at its first 'T'.
   */
  function NewPaper(data: CreatePaperModal.FormData, id: string, createdIso: string, modifiedIso: string): (p: Paper)
    ensures p.id == id && p.progress == 0 && p.wordCount == 0
    ensures p.title == data.title && p.topic == data.topic && p.kind == data.kind
    ensures p.dueDate == Some(data.dueDate)
    ensures p.createdAt <= createdIso && 'T' !in p.createdAt
    ensures |p.createdAt| < |createdIso| ==> createdIso[|p.createdAt|] == 'T'
    ensures p.lastModified <= modifiedIso && 'T' !in p.lastModified
    ensures |p.lastModified| < |modifiedIso| ==> modifiedIso[|p.lastModified|] == 'T'
  {
    Paper(id, data.title, data.topic, data.kind, BeforeFirst(createdIso, 'T'),
      BeforeFirst(modifiedIso, 'T'), 0, Some(data.dueDate), 0)
  }

  /** The search: title or topic contains the term, ignoring case. */
  predicate MatchesSearch(p: Paper, term: string) {
    Contains(Lower(p.title), Lower(term)) || Contains(Lower(p.topic), Lower(term))
  }

  /** `filteredPapers`: the matching papers, in list order. */
  function SearchPapers(papers: seq<Paper>, term: string): (r: seq<Paper>)
    ensures Seqs.IsSubsequence(r, papers)
    ensures forall i :: 0 <= i < |r| ==> MatchesSearch(r[i], term)
    ensures forall i :: 0 <= i < |papers| && MatchesSearch(papers[i], term) ==> papers[i] in r
    ensures forall x :: multiset(r)[x] == if MatchesSearch(x, term) then multiset(papers)[x] else 0
  {
    var keep := (p: Paper) => MatchesSearch(p, term);
    Seqs.FilterCounts(papers, keep);
    Seqs.FilterIsSubsequence(papers, keep);
    Seqs.Filter(papers, keep)
  }

  /** An empty search lists every paper. */
  lemma EmptySearchKeepsAll(papers: seq<Paper>)
    ensures SearchPapers(papers, "") == papers
  {
    var keep := (p: Paper) => MatchesSearch(p, "");
    assert Lower("") == "";
    forall i | 0 <= i < |papers|
      ensures keep(papers[i])
    {
      assert Contains(Lower(papers[i].title), "");
    }
    Seqs.FilterKeepsAll(papers, keep);
  }

  /** `getProgressColor`: a bucket for every integer progress. */
  function ProgressColor(progress: int): (c: string)
    ensures c == "bg-red-500" <==> progress < 25
    ensures c == "bg-yellow-500" <==> 25 <= progress < 50
    ensures c == "bg-blue-500" <==> 50 <= progress < 75
    ensures c == "bg-emerald-500" <==> 75 <= progress
  {
    if progress < 25 then "bg-red-500"
    else if progress < 50 then "bg-yellow-500"
    else if progress < 75 then "bg-blue-500"
    else "bg-emerald-500"
  }

  /** The buckets in order, red first. */
  function ColorRank(c: string): nat {
    if c == "bg-red-500" then 0
    else if c == "bg-yellow-500" then 1
    else if c == "bg-blue-500" then 2
    else 3
  }

  /** More progress never moves a paper to an earlier colour. */
  lemma ProgressColorMonotone(a: int, b: int)
    requires a <= b
    ensures ColorRank(ProgressColor(a)) <= ColorRank(ProgressColor(b))
  {
  }

  predicate IsCompleted(p: Paper) {
    p.progress >= 100
  }

  predicate IsInProgress(p: Paper) {
    p.progress > 0 && p.progress < 100
  }

  /** The "Completed" figure. */
  function CompletedCount(papers: seq<Paper>): nat {
    |Seqs.Filter(papers, IsCompleted)|
  }

  /** The "In Progress" figure. */
  function InProgressCount(papers: seq<Paper>): nat {
    |Seqs.Filter(papers, IsInProgress)|
  }

  /** No paper is counted twice, so the two figures together never exceed the number of papers. */
  lemma CountsFit(papers: seq<Paper>)
    ensures CompletedCount(papers) + InProgressCount(papers) <= |papers|
  {
    Seqs.DisjointFiltersFit(papers, IsCompleted, IsInProgress);
  }

  /** A new paper starts red and is counted neither as completed nor as in progress. */
  lemma NewPaperCountedNowhere(data: CreatePaperModal.FormData, id: string, createdIso: string, modifiedIso: string)
    ensures var p := NewPaper(data, id, createdIso, modifiedIso);
      ProgressColor(p.progress) == "bg-red-500" && !IsCompleted(p) && !IsInProgress(p)
  {
  }

  // ----- The page -----

  class DashboardPage {
    var papers: seq<Paper>
    var isLoading: bool
    var showCreateModal: bool
    /** Where `router.push` last sent the browser, if anywhere. */
    var redirect: Option<string>
    const store: Storage.LocalStorage
    const form: CreatePaperModal.CreatePaperForm

    constructor(store: Storage.LocalStorage, form: CreatePaperModal.CreatePaperForm)
      ensures this.store == store && this.form == form
      ensures papers == [] && isLoading && !showCreateModal && redirect == None
    {
      this.store := store;
      this.form := form;
      papers := [];
      isLoading := true;
      showCreateModal := false;
      redirect := None;
    }

    /**
     * The load effect. Without a user it sends the browser to `/login` and stops.
     * Otherwise a non-empty saved list is used as it is (text that does not parse
     * as a paper list stops the effect where `JSON.parse` would throw); with
     * nothing saved the two sample papers are set and stored. Loading then ends.
     */
    method Load(userPresent: bool)
      modifies this, store
      ensures !userPresent ==>
        redirect == Some("/login") && papers == old(papers) && isLoading == old(isLoading)
        && store.items == old(store.items)
      ensures userPresent ==> redirect == old(redirect)
      ensures userPresent ==>
        var saved := old(store.Get(PapersKey));
        if saved.Some? && saved.value != "" then
          store.items == old(store.items)
          && (DecodePapers(saved.value).Some? ==> papers == DecodePapers(saved.value).value && !isLoading)
          && (DecodePapers(saved.value).None? ==> papers == old(papers) && isLoading == old(isLoading))
        else
          papers == SamplePapers() && !isLoading
          && store.items == old(store.items)[PapersKey := EncodePapers(SamplePapers())]
      ensures showCreateModal == old(showCreateModal)
    {
      if !userPresent {
        redirect := Some("/login");
        return;
      }
      var saved := store.Get(PapersKey);
      if saved.Some? && saved.value != "" {
        var decoded := DecodePapers(saved.value);
        if decoded.None? {
          return;
        }
        papers := decoded.value;
      } else {
        var samples := SamplePapers();
        papers := samples;
        store.SetItem(PapersKey, EncodePapers(samples));
      }
      isLoading := false;
    }

    /**
     * `handleCreatePaper`: the new paper goes in front, the whole list is stored
     * (and reads back as the list in memory), and the dialog closes.
     */
    method CreatePaper(data: CreatePaperModal.FormData, id: string, createdIso: string, modifiedIso: string)
      modifies this, store
      ensures papers == [NewPaper(data, id, createdIso, modifiedIso)] + old(papers)
      ensures store.items == old(store.items)[PapersKey := EncodePapers(papers)]
      ensures PapersKey in store.items && DecodePapers(store.items[PapersKey]) == Some(papers)
      ensures !showCreateModal && isLoading == old(isLoading) && redirect == old(redirect)
    {
      var updated := [NewPaper(data, id, createdIso, modifiedIso)] + papers;
      papers := updated;
      store.SetItem(PapersKey, EncodePapers(updated));
      DecodeEncodePapers(updated);
      showCreateModal := false;
    }

    /** The "New Paper" button opens the dialog. */
    method OpenCreateModal()
      modifies this
      ensures showCreateModal
      ensures papers == old(papers) && isLoading == old(isLoading) && redirect == old(redirect)
    {
      showCreateModal := true;
    }

    /** Submitting the dialog: the form hands over its data and empties itself, then the paper is created. */
    method SubmitCreateForm(id: string, createdIso: string, modifiedIso: string)
      modifies this, store, form
      ensures papers == [NewPaper(old(form.formData), id, createdIso, modifiedIso)] + old(papers)
      ensures store.items == old(store.items)[PapersKey := EncodePapers(papers)]
      ensures form.formData == CreatePaperModal.EmptyForm()
      ensures !showCreateModal && isLoading == old(isLoading) && redirect == old(redirect)
    {
      var data := form.HandleSubmit();
      CreatePaper(data, id, createdIso, modifiedIso);
    }

    /** Closing the dialog: the form empties itself, then the dialog is hidden. */
    method CloseCreateModal()
      modifies this, form
      ensures form.formData == CreatePaperModal.EmptyForm() && !showCreateModal
      ensures papers == old(papers) && isLoading == old(isLoading) && redirect == old(redirect)
    {
      form.HandleClose();
      showCreateModal := false;
    }
  }
}
