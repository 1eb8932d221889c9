/**
 * The paper editor's shell: finding the paper being edited in the saved list,
 * appending reference entries to the paper's references section in storage,
 * the per-task AI result map, and the settings tab's field edits.
 */
module PaperEditor {
  import opened Wrappers
  import opened Text
  import opened Json
  import Storage
  import Dashboard
  import CreatePaperModal

  type Paper = Dashboard.Paper

  datatype Tab = Write | Sources | Settings

  // ----- Finding the paper -----

  /** `papers.find(p => p.id === paperId)`: the first paper with that id, if any. */
  function FindPaper(papers: seq<Paper>, id: string): (r: Option<Paper>)
    ensures r.None? <==> forall i :: 0 <= i < |papers| ==> papers[i].id != id
    ensures r.Some? ==> exists i :: 0 <= i < |papers| && papers[i] == r.value && FirstWithId(papers, id, i)
  {
    if papers == [] then None
    else if papers[0].id == id then (assert FirstWithId(papers, id, 0); Some(papers[0]))
    else
      var rest := FindPaper(papers[1..], id);
      if rest.Some? then
        var i :| 0 <= i < |papers[1..]| && papers[1..][i] == rest.value && FirstWithId(papers[1..], id, i);
        assert FirstWithId(papers, id, i + 1);
        rest
      else
        rest
  }

  /** Position `i` holds a paper with id `id`, and no earlier position does. */
  predicate FirstWithId(papers: seq<Paper>, id: string, i: nat) {
    i < |papers| && papers[i].id == id && forall j :: 0 <= j < i ==> papers[j].id != id
  }

  /** A paper just created on the dashboard is the one the editor opens for its id. */
  lemma CreatedPaperIsFound(data: CreatePaperModal.FormData, id: string,
                            createdIso: string, modifiedIso: string, papers: seq<Paper>)
    ensures FindPaper([Dashboard.NewPaper(data, id, createdIso, modifiedIso)] + papers, id)
         == Some(Dashboard.NewPaper(data, id, createdIso, modifiedIso))
  {
  }

  // ----- The references section -----

  /** The storage key of a paper's references section. */
  function ReferencesKey(id: string): (k: string)
    ensures |k| == |id| + 25
    ensures k[..6] == "paper_" && k[6..6 + |id|] == id
    ensures k[6 + |id|..] == "_section_references"
  {
    "paper_" + id + "_section_references"
  }

  /** Different papers keep their references under different keys. */
  lemma ReferencesKeyInjective(a: string, b: string)
    requires ReferencesKey(a) == ReferencesKey(b)
    ensures a == b
  {
    assert |a| == |b|;
    assert a == ReferencesKey(a)[6..6 + |a|];
  }

  /** A references key never collides with the paper list, user or theme keys. */
  lemma ReferencesKeyIsOwn(id: string)
    ensures ReferencesKey(id) != Dashboard.PapersKey
    ensures ReferencesKey(id) != "researchflow_user" && ReferencesKey(id) != "researchflow_theme"
  {
    assert ReferencesKey(id)[0] == 'p';
  }

  const Separator := "\n\n"

  /**
   * The new references text: what is stored (nothing reads as ""), then a blank
   * line only when the stored text has something other than whitespace, then
   * the entry.
   */
  function AppendReference(current: Option<string>, entry: string): (r: string)
    ensures var prior := current.GetOr("");
      && (AllWhitespace(prior) ==> r == prior + entry)
      && (!AllWhitespace(prior) ==> r == prior + Separator + entry)
  {
    var prior := current.GetOr("");
    var sep := if Trim(prior) != "" then Separator else "";
    prior + sep + entry
  }

  /** The text left after appending `entries` one by one to an empty section. */
  function Accumulated(entries: seq<string>): string
    decreases |entries|
  {
    if entries == [] then ""
    else AppendReference(Some(Accumulated(entries[..|entries| - 1])), entries[|entries| - 1])
  }

  predicate HasText(s: string) {
    exists k :: 0 <= k < |s| && !IsJsWhitespace(s[k])
  }

  /**
   * Entries that each carry some text end up one after another, separated by
   * blank lines: the same text as joining them with "\n\n".
   */
  lemma {:induction false} AccumulatedIsJoin(entries: seq<string>)
    requires forall i :: 0 <= i < |entries| ==> HasText(entries[i])
    ensures Accumulated(entries) == Join(entries, Separator)
    decreases |entries|
  {
    if |entries| > 1 {
      var init := entries[..|entries| - 1];
      var last := entries[|entries| - 1];
      assert init + [last] == entries;
      AccumulatedIsJoin(init);
      AccumulatedHasText(init);
      AccumulatedStep(init, last);
      JoinSnoc(init, last, Separator);
    } else if |entries| == 1 {
      assert entries[..0] == [];
      assert AllWhitespace("");
    }
  }

  lemma AccumulatedStep(init: seq<string>, last: string)
    requires !AllWhitespace(Accumulated(init))
    ensures Accumulated(init + [last]) == Accumulated(init) + Separator + last
  {
    var entries := init + [last];
    assert entries[..|entries| - 1] == init;
    assert entries[|entries| - 1] == last;
  }

  /** Appending a non-blank entry leaves text behind. */
  lemma {:induction false} AccumulatedHasText(entries: seq<string>)
    requires entries != []
    requires HasText(entries[|entries| - 1])
    ensures !AllWhitespace(Accumulated(entries))
  {
    var last := entries[|entries| - 1];
    var r := Accumulated(entries);
    var k :| 0 <= k < |last| && !IsJsWhitespace(last[k]);
    assert r[|r| - |last| + k] == last[k];
  }

  lemma {:induction false} JoinSnoc(xs: seq<string>, x: string, sep: string)
    requires xs != []
    ensures Join(xs + [x], sep) == Join(xs, sep) + sep + x
    decreases |xs|
  {
    if |xs| == 1 {
      assert (xs + [x])[1..] == [x];
    } else {
      assert (xs + [x])[1..] == xs[1..] + [x];
      JoinSnoc(xs[1..], x, sep);
    }
  }

  // ----- The page -----

  class PaperEditorPage {
    var paper: Option<Paper>
    var activeTab: Tab
    /** Results from the AI panel, by task name. */
    var aiResults: map<string, Json>
    var isAiLoading: bool
    var currentAiTask: Option<string>
    var isLoading: bool
    /** Where `router.push` last sent the browser, if anywhere. */
    var redirect: Option<string>
    const store: Storage.LocalStorage
    const paperId: string

    constructor(store: Storage.LocalStorage, paperId: string)
      ensures this.store == store && this.paperId == paperId
      ensures paper == None && activeTab == Write && aiResults == map[]
      ensures !isAiLoading && currentAiTask == None && isLoading && redirect == None
    {
      this.store := store;
      this.paperId := paperId;
      paper := None;
      activeTab := Write;
      aiResults := map[];
      isAiLoading := false;
      currentAiTask := None;
      isLoading := true;
      redirect := None;
    }

    /**
     * The load effect. Without a user it sends the browser to `/login` and stops.
     * Otherwise it looks the paper up in the saved list; with no saved list or no
     * paper of this id it sends the browser to `/dashboard` and the paper stays
     * unset. Text that does not parse as a paper list stops the effect where
     * `JSON.parse` would throw. Loading then ends. Storage is only read.
     */
    method Load(userPresent: bool)
      modifies this
      ensures !userPresent ==>
        redirect == Some("/login") && paper == old(paper) && isLoading == old(isLoading)
      ensures userPresent ==>
        var saved := store.Get(Dashboard.PapersKey);
        if saved.Some? && saved.value != "" then
          var decoded := Dashboard.DecodePapers(saved.value);
          if decoded.None? then
            paper == old(paper) && isLoading == old(isLoading) && redirect == old(redirect)
          else if FindPaper(decoded.value, paperId).Some? then
            paper == FindPaper(decoded.value, paperId) && redirect == old(redirect) && !isLoading
          else
            paper == old(paper) && redirect == Some("/dashboard") && !isLoading
        else
          paper == old(paper) && redirect == Some("/dashboard") && !isLoading
      ensures activeTab == old(activeTab) && aiResults == old(aiResults)
      ensures isAiLoading == old(isAiLoading) && currentAiTask == old(currentAiTask)
    {
      if !userPresent {
        redirect := Some("/login");
        return;
      }
      var saved := store.Get(Dashboard.PapersKey);
      if saved.Some? && saved.value != "" {
        var decoded := Dashboard.DecodePapers(saved.value);
        if decoded.None? {
          return;
        }
        var current := FindPaper(decoded.value, paperId);
        if current.Some? {
          paper := current;
        } else {
          redirect := Some("/dashboard");
        }
      } else {
        redirect := Some("/dashboard");
      }
      isLoading := false;
    }

    /**
     * The `add-reference-entry` handler. A missing or empty entry, or no loaded
     * paper with a non-empty id, changes nothing. Otherwise the entry is appended
     * to the paper's references section and the write tab is shown.
     */
    method AddReferenceEntry(entry: Option<string>)
      modifies this, store
      ensures (entry.None? || entry.value == "" || paper.None? || paper.value.id == "") ==>
        store.items == old(store.items) && activeTab == old(activeTab)
      ensures !(entry.None? || entry.value == "" || paper.None? || paper.value.id == "") ==>
        var key := ReferencesKey(paper.value.id);
        store.items == old(store.items)[key := AppendReference(old(store.Get(key)), entry.value)]
        && activeTab == Write
      ensures paper == old(paper) && aiResults == old(aiResults) && isLoading == old(isLoading)
      ensures isAiLoading == old(isAiLoading) && currentAiTask == old(currentAiTask)
      ensures redirect == old(redirect)
    {
      if entry.None? || entry.value == "" || paper.None? || paper.value.id == "" {
        return;
      }
      var key := ReferencesKey(paper.value.id);
      var current := store.Get(key);
      store.SetItem(key, AppendReference(current, entry.value));
      activeTab := Write;
    }

    /**
     * The `request-insert-citation` handler: a missing or empty citation is
     * ignored; otherwise the write tab is shown and the citation is handed on to
     * the content editor, which is not part of this model.
     */
    method RequestInsertCitation(inline: Option<string>) returns (forwarded: Option<string>)
      modifies this
      ensures inline.None? || inline.value == "" ==> forwarded == None && activeTab == old(activeTab)
      ensures inline.Some? && inline.value != "" ==> forwarded == inline && activeTab == Write
      ensures paper == old(paper) && aiResults == old(aiResults) && isLoading == old(isLoading)
      ensures isAiLoading == old(isAiLoading) && currentAiTask == old(currentAiTask)
      ensures redirect == old(redirect)
    {
      if inline.None? || inline.value == "" {
        return None;
      }
      activeTab := Write;
      forwarded := inline;
    }

    /** `handleAiResult`: the task's result replaces any earlier one; other tasks keep theirs. */
    method HandleAiResult(task: string, data: Json)
      modifies this
      ensures aiResults == old(aiResults)[task := data]
      ensures task in aiResults && aiResults[task] == data
      ensures forall t :: t != task ==> (t in aiResults <==> t in old(aiResults))
      ensures forall t :: t != task && t in aiResults ==> aiResults[t] == old(aiResults)[t]
      ensures paper == old(paper) && activeTab == old(activeTab) && isLoading == old(isLoading)
      ensures isAiLoading == old(isAiLoading) && currentAiTask == old(currentAiTask)
      ensures redirect == old(redirect)
    {
      aiResults := aiResults[task := data];
    }

    /** `handleAiAction`: marks the AI panel busy with `task`; nothing else changes. */
    method HandleAiAction(task: string)
      modifies this
      ensures isAiLoading && currentAiTask == Some(task)
      ensures paper == old(paper) && activeTab == old(activeTab) && aiResults == old(aiResults)
      ensures isLoading == old(isLoading) && redirect == old(redirect)
    {
      isAiLoading := true;
      currentAiTask := Some(task);
    }

    /** Switching tabs. */
    method SetActiveTab(tab: Tab)
      modifies this
      ensures activeTab == tab
      ensures paper == old(paper) && aiResults == old(aiResults) && isLoading == old(isLoading)
      ensures isAiLoading == old(isAiLoading) && currentAiTask == old(currentAiTask)
      ensures redirect == old(redirect)
    {
      activeTab := tab;
    }

    /** The settings tab's title field: only the paper held by the page changes, never the saved list. */
    method SetTitle(value: string)
      requires paper.Some?
      modifies this
      ensures paper == Some(old(paper).value.(title := value))
      ensures activeTab == old(activeTab) && aiResults == old(aiResults) && isLoading == old(isLoading)
      ensures isAiLoading == old(isAiLoading) && currentAiTask == old(currentAiTask)
      ensures redirect == old(redirect)
    {
      paper := Some(paper.value.(title := value));
    }

    /** The settings tab's topic field. */
    method SetTopic(value: string)
      requires paper.Some?
      modifies this
      ensures paper == Some(old(paper).value.(topic := value))
      ensures activeTab == old(activeTab) && aiResults == old(aiResults) && isLoading == old(isLoading)
      ensures isAiLoading == old(isAiLoading) && currentAiTask == old(currentAiTask)
      ensures redirect == old(redirect)
    {
      paper := Some(paper.value.(topic := value));
    }

    /** The settings tab's due date field; an emptied field is stored as the empty string. */
    method SetDueDate(value: string)
      requires paper.Some?
      modifies this
      ensures paper == Some(old(paper).value.(dueDate := Some(value)))
      ensures activeTab == old(activeTab) && aiResults == old(aiResults) && isLoading == old(isLoading)
      ensures isAiLoading == old(isAiLoading) && currentAiTask == old(currentAiTask)
      ensures redirect == old(redirect)
    {
      paper := Some(paper.value.(dueDate := Some(value)));
    }
  }
}
