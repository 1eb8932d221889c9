/**
 * The citation library of the editor's Sources tab: how a source is rendered
 * as an APA-like or MLA-like reference string, how its citation key is
 * derived, how the list is searched and filtered, and how the list and the
 * "add source" form change when a source is added, deleted or imported from
 * a DOI.
 */
module Citations {
  import opened Wrappers
  import opened Text
  import Seqs
  import DoiResolver

  datatype SourceType = Book | Journal | Website | Conference | Thesis | Other

  /** The string the source type is stored and compared as. */
  function TypeName(t: SourceType): (name: string)
    ensures name != "all"
  {
    match t
    case Book => "book"
    case Journal => "journal"
    case Website => "website"
    case Conference => "conference"
    case Thesis => "thesis"
    case Other => "other"
  }

  function TypeFromName(name: string): (r: Option<SourceType>)
    ensures r.Some? ==> TypeName(r.value) == name
  {
    match name
    case "book" => Some(Book)
    case "journal" => Some(Journal)
    case "website" => Some(Website)
    case "conference" => Some(Conference)
    case "thesis" => Some(Thesis)
    case "other" => Some(Other)
    case _ => None
  }

  /** Every type name is read back as the type it names. */
  lemma TypeNameRoundTrip(t: SourceType)
    ensures TypeFromName(TypeName(t)) == Some(t)
  {
    match t
    case Book =>
    case Journal =>
    case Website =>
    case Conference =>
    case Thesis =>
    case Other =>
  }

  /**
   * A source of the library. The optional fields are `None` where the record
   * leaves them out (the two seed sources); a source added through the form
   * has every field.
   */
  datatype Source = Source(
    id: string,
    kind: SourceType,
    title: string,
    author: string,
    year: string,
    publisher: Option<string>,
    journal: Option<string>,
    volume: Option<string>,
    pages: Option<string>,
    url: Option<string>,
    doi: Option<string>,
    notes: Option<string>,
    citationKey: string)

  /** A field interpolated into a template literal: an absent field renders as `undefined`. */
  function Show(field: Option<string>): string {
    match field
    case None => "undefined"
    case Some(v) => v
  }

  /** JavaScript truthiness of an optional string field. */
  predicate Truthy(field: Option<string>) {
    field.Some? && field.value != ""
  }

  // ---------------------------------------------------------------------------
  // Formatting

  /** `formatCitation(source, format)`: the style defaults to "apa"; any other value gives MLA. */
  function FormatCitation(s: Source, style: string := "apa"): string {
    if style == "apa" then Apa(s) else Mla(s)
  }

  /** "author (year)." opens every APA template. */
  function AuthorYear(s: Source): string {
    s.author + " (" + s.year + ")."
  }

  /** The part of the APA journal template before the DOI link. */
  function ApaJournalBody(s: Source): string {
    " " + s.title + ". *" + Show(s.journal) + "*, *" + Show(s.volume) + "*, " + Show(s.pages)
  }

  /** The DOI link, present only when the DOI is non-empty. */
  function DoiLink(s: Source): string {
    if Truthy(s.doi) then "https://doi.org/" + s.doi.value else ""
  }

  function Apa(s: Source): string {
    match s.kind
    case Journal => Trim(AuthorYear(s) + ApaJournalBody(s) + ". " + DoiLink(s))
    case Book => AuthorYear(s) + (" *" + s.title + "*. " + Show(s.publisher) + ".")
    case Website => AuthorYear(s) + (" " + s.title + ". Retrieved from " + Show(s.url))
    case _ => AuthorYear(s) + (" " + s.title + ".")
  }

  /** What stands between the author and the title in MLA: a quote, or a star for a book title. */
  function MlaOpen(s: Source): string {
    if s.kind == Book then " *" else " \""
  }

  /** What stands between the title and the year in MLA. */
  function MlaMiddle(s: Source): string {
    match s.kind
    case Journal => ".\" *" + Show(s.journal) + "*, vol. " + Show(s.volume) + ", "
    case Book => "*. " + Show(s.publisher) + ", "
    case Website => ".\" *Web*, "
    case _ => ".\" "
  }

  /** What follows the year in MLA. */
  function MlaClose(s: Source): string {
    match s.kind
    case Journal => ", pp. " + Show(s.pages) + "."
    case Website => ", " + Show(s.url) + "."
    case _ => "."
  }

  function Mla(s: Source): string {
    s.author + MlaOpen(s) + s.title + MlaMiddle(s) + s.year + MlaClose(s)
  }

  /** `piece` occurs in `r` starting at index `at`. */
  predicate Occurs(r: string, piece: string, at: int) {
    0 <= at && at + |piece| <= |r| && r[at..at + |piece|] == piece
  }

  lemma FivePieces(a: string, t: string, m: string, y: string, z: string)
    ensures Occurs(a + t + m + y + z, t, |a|)
    ensures Occurs(a + t + m + y + z, y, |a| + |t| + |m|)
  {
    var r := a + t + m + y + z;
    assert r[|a|..|a| + |t|] == t;
    assert r[|a| + |t| + |m|..|a| + |t| + |m| + |y|] == y;
  }

  /** In MLA the title comes right after the author and an opening mark, and the year comes after the title, for every source type. */
  lemma MlaYearAfterTitle(s: Source, style: string)
    requires style != "apa"
    ensures Occurs(FormatCitation(s, style), s.title, |s.author| + 2)
    ensures exists j :: |s.author| + 2 + |s.title| <= j && Occurs(FormatCitation(s, style), s.year, j)
  {
    var a := s.author + MlaOpen(s);
    FivePieces(a, s.title, MlaMiddle(s), s.year, MlaClose(s));
    assert Occurs(FormatCitation(s, style), s.year, |a| + |s.title| + |MlaMiddle(s)|);
  }

  /**
   * In APA the citation opens with "author (year).", for every source type;
   * for a journal article this needs an author that does not start with a
   * blank, because the whole journal string is trimmed.
   */
  lemma ApaYearFollowsAuthor(s: Source)
    requires s.author != [] && !IsJsWhitespace(s.author[0])
    ensures AuthorYear(s) <= FormatCitation(s)
  {
    var p := AuthorYear(s);
    assert p[0] == s.author[0];
    if s.kind == Journal {
      var q := ApaJournalBody(s) + ". " + DoiLink(s);
      Assoc(p, ApaJournalBody(s) + ". ", DoiLink(s));
      Assoc(p, ApaJournalBody(s), ". ");
      TrimKeepsPrefix(p, q);
      PrefixOfAppend(p, TrimEnd(q));
    } else {
      match s.kind
      case Book => PrefixOfAppend(p, " *" + s.title + "*. " + Show(s.publisher) + ".");
      case Website => PrefixOfAppend(p, " " + s.title + ". Retrieved from " + Show(s.url));
      case _ => PrefixOfAppend(p, " " + s.title + ".");
    }
  }

  lemma PrefixOfAppend(p: string, q: string)
    ensures p <= p + q
  {
    assert (p + q)[..|p|] == p;
  }

  /**
   * The APA journal string ends with the DOI link when the DOI is non-empty
   * and does not end in a blank (a trailing blank would go with the final trim).
   */
  lemma ApaJournalEndsWithDoi(s: Source)
    requires s.kind == Journal && Truthy(s.doi)
    requires !IsJsWhitespace(s.doi.value[|s.doi.value| - 1])
    ensures var r, link := FormatCitation(s), "https://doi.org/" + s.doi.value;
      |link| <= |r| && r[|r| - |link|..] == link
  {
    var b := AuthorYear(s) + ApaJournalBody(s) + ". ";
    var link := "https://doi.org/" + s.doi.value;
    assert DoiLink(s) == link;
    assert link[|link| - 1] == s.doi.value[|s.doi.value| - 1];
    Unit(b + link);
    TrimKeepsSuffix(b, link, "");
    SuffixOfAppend(TrimStart(b), link);
  }

  /** Without a DOI the APA journal string ends with the period after the pages. */
  lemma ApaJournalEndsWithPeriod(s: Source)
    requires s.kind == Journal && !Truthy(s.doi)
    ensures var r := FormatCitation(s);
      r != [] && r[|r| - 1] == '.'
  {
    var b := AuthorYear(s) + ApaJournalBody(s);
    assert DoiLink(s) == "";
    Unit(b + ". ");
    assert ". " == "." + " ";
    Assoc(b, ".", " ");
    TrimKeepsSuffix(b, ".", " ");
    var t := TrimStart(b) + ".";
    assert t[|t| - 1] == '.';
  }

  lemma Unit(a: string)
    ensures a + "" == a
  {
  }

  lemma SuffixOfAppend(p: string, q: string)
    ensures (p + q)[|p + q| - |q|..] == q
  {
  }

  /** Conference papers, theses and other sources all share the default template, in both styles. */
  lemma DefaultTemplateShared(s: Source, style: string)
    requires s.kind == Conference || s.kind == Thesis || s.kind == Other
    ensures FormatCitation(s, style) == FormatCitation(s.(kind := Other), style)
  {
  }

  /** Books and websites have templates of their own, different from the default one, in both styles. */
  lemma BookAndWebsiteOwnTemplates(s: Source, style: string)
    requires s.kind == Book || s.kind == Website
    ensures FormatCitation(s, style) != FormatCitation(s.(kind := Other), style)
  {
    var d := s.(kind := Other);
    assert |FormatCitation(s, style)| > |FormatCitation(d, style)|;
  }

  /**
   * The two styles never give the same string for a source whose author starts
   * with a non-blank: right after the author, APA has " (" and MLA a quote or a star.
   */
  lemma StylesDiffer(s: Source, style: string)
    requires style != "apa"
    requires s.author != [] && !IsJsWhitespace(s.author[0])
    ensures FormatCitation(s) != FormatCitation(s, style)
  {
    ApaParenAfterAuthor(s);
    MlaMarkAfterAuthor(s, style);
  }

  lemma ApaParenAfterAuthor(s: Source)
    requires s.author != [] && !IsJsWhitespace(s.author[0])
    ensures |s.author| + 1 < |FormatCitation(s)| && FormatCitation(s)[|s.author| + 1] == '('
  {
    ApaYearFollowsAuthor(s);
    assert AuthorYear(s)[|s.author| + 1] == '(';
  }

  lemma MlaMarkAfterAuthor(s: Source, style: string)
    requires style != "apa"
    ensures |s.author| + 1 < |FormatCitation(s, style)|
    ensures FormatCitation(s, style)[|s.author| + 1] in {'"', '*'}
  {
    MlaMark(s);
  }

  /** In MLA a book never reads like any other type of source: its title opens with a star, the others' with a quote. */
  lemma MlaBookStandsApart(s: Source, style: string)
    requires style != "apa" && s.kind != Book
    ensures FormatCitation(s, style) != FormatCitation(s.(kind := Book), style)
  {
    MlaMark(s);
    MlaMark(s.(kind := Book));
  }

  lemma MlaMark(s: Source)
    ensures |s.author| + 1 < |Mla(s)| && Mla(s)[|s.author| + 1] == if s.kind == Book then '*' else '"'
  {
    var a := s.author + MlaOpen(s);
    Assoc4(a, s.title, MlaMiddle(s), s.year + MlaClose(s));
    assert Mla(s) == a + (s.title + MlaMiddle(s) + (s.year + MlaClose(s)));
    assert a[|s.author| + 1] == MlaOpen(s)[1];
  }

  lemma Assoc4(a: string, b: string, c: string, d: string)
    ensures a + b + c + d == a + (b + c + d)
  {
  }

  // ---------------------------------------------------------------------------
  // Citation keys

  predicate NoUpper(s: string) {
    forall i :: 0 <= i < |s| ==> !('A' <= s[i] <= 'Z')
  }

  lemma LowerHasNoUpper(s: string)
    ensures NoUpper(Lower(s))
  {
  }

  /** The author part of a citation key: the lower-cased author up to the first comma, trimmed. */
  function KeyAuthor(author: string): string {
    Trim(BeforeFirst(Lower(author), ','))
  }

  /** The author part holds no comma and no upper-case letter. */
  lemma KeyAuthorChars(author: string)
    ensures ',' !in KeyAuthor(author) && NoUpper(KeyAuthor(author))
  {
    LowerHasNoUpper(author);
    TrimmedPiece(Lower(author), BeforeFirst(Lower(author), ','));
  }

  /**
   * The author part starts and ends with a non-blank unless it is empty, which
   * it is exactly when the author's text before its first comma is blank.
   */
  lemma KeyAuthorBlank(author: string)
    ensures var r := KeyAuthor(author);
      && (r != [] ==> !IsJsWhitespace(r[0]) && !IsJsWhitespace(r[|r| - 1]))
      && (r == [] <==> AllWhitespace(BeforeFirst(Lower(author), ',')))
  {
    TrimShape(BeforeFirst(Lower(author), ','));
  }

  /** Trimming a comma-free prefix of a text without capitals leaves no comma and no capital. */
  lemma TrimmedPiece(full: string, cut: string)
    requires cut <= full && NoUpper(full) && ',' !in cut
    ensures ',' !in Trim(cut) && NoUpper(Trim(cut))
  {
    var r := Trim(cut);
    var offset := |cut| - |TrimStart(cut)|;
    forall i | 0 <= i < |r|
      ensures r[i] in cut && !('A' <= r[i] <= 'Z')
    {
      TrimPiece(cut, i);
      assert full[offset + i] == cut[offset + i];
    }
  }

  /** Each character left by `trim` is the one at the same place once the leading blanks are skipped. */
  lemma TrimPiece(s: string, i: int)
    requires 0 <= i < |Trim(s)|
    ensures |s| - |TrimStart(s)| + i < |s|
    ensures Trim(s)[i] == s[|s| - |TrimStart(s)| + i]
  {
    var t := TrimStart(s);
    assert TrimEnd(t)[i] == t[i];
  }

  /** The title part of a citation key: the lower-cased title up to its first space. */
  function KeyTitle(title: string): (r: string)
    ensures ' ' !in r && NoUpper(r)
    ensures r <= Lower(title)
    ensures |r| < |title| ==> Lower(title)[|r|] == ' '
  {
    LowerHasNoUpper(title);
    BeforeFirst(Lower(title), ' ')
  }

  /** The citation key: author part, then the year as given, then title part. */
  function CitationKey(author: string, year: string, title: string): string {
    KeyAuthor(author) + year + KeyTitle(title)
  }

  // ---------------------------------------------------------------------------
  // Search and type filter

  /** The search matches title or author, ignoring case; the type filter is "all" or the exact type name. */
  predicate Matches(s: Source, term: string, filterType: string) {
    && (Contains(Lower(s.title), Lower(term)) || Contains(Lower(s.author), Lower(term)))
    && (filterType == "all" || TypeName(s.kind) == filterType)
  }

  /** `filteredSources`: the matching sources, in their order in the library. */
  function FilterSources(sources: seq<Source>, term: string, filterType: string): (r: seq<Source>)
    ensures Seqs.IsSubsequence(r, sources)
    ensures forall i :: 0 <= i < |r| ==> Matches(r[i], term, filterType)
    ensures forall i :: 0 <= i < |sources| && Matches(sources[i], term, filterType) ==> sources[i] in r
    ensures forall x :: multiset(r)[x] == if Matches(x, term, filterType) then multiset(sources)[x] else 0
  {
    var keep := (s: Source) => Matches(s, term, filterType);
    Seqs.FilterCounts(sources, keep);
    Seqs.FilterIsSubsequence(sources, keep);
    Seqs.Filter(sources, keep)
  }

  /** With an empty search and the "all" filter every source is listed, in order. */
  lemma EmptySearchKeepsAll(sources: seq<Source>)
    ensures FilterSources(sources, "", "all") == sources
  {
    var keep := (s: Source) => Matches(s, "", "all");
    assert Lower("") == "";
    forall i | 0 <= i < |sources|
      ensures keep(sources[i])
    {
      assert Contains(Lower(sources[i].title), "");
    }
    Seqs.FilterKeepsAll(sources, keep);
  }

  // ---------------------------------------------------------------------------
  // The library and its "add source" form

  /** The form behind "Add Source": every field is a string, the type one of the six. */
  datatype Draft = Draft(
    kind: SourceType,
    title: string,
    author: string,
    year: string,
    publisher: string,
    journal: string,
    volume: string,
    pages: string,
    url: string,
    doi: string,
    notes: string)

  /** The form as it starts and as it is reset: a journal article with every field empty. */
  function EmptyDraft(): (d: Draft)
    ensures !CanAdd(d)
  {
    Draft(Journal, "", "", "", "", "", "", "", "", "", "")
  }

  /** A source may be added only when title, author and year are all non-empty. */
  predicate CanAdd(d: Draft) {
    d.title != "" && d.author != "" && d.year != ""
  }

  /** The form fields of a source, absent ones read as empty. */
  function DraftOf(s: Source): Draft {
    Draft(s.kind, s.title, s.author, s.year, s.publisher.GetOr(""), s.journal.GetOr(""),
      s.volume.GetOr(""), s.pages.GetOr(""), s.url.GetOr(""), s.doi.GetOr(""), s.notes.GetOr(""))
  }

  /**
   * The source built from the form: the given id, the derived citation key, and
   * every form field carried over unchanged.
   */
  function SourceFromDraft(d: Draft, id: string): (s: Source)
    ensures s.id == id && s.citationKey == CitationKey(d.author, d.year, d.title)
  {
    Source(id, d.kind, d.title, d.author, d.year, Some(d.publisher), Some(d.journal), Some(d.volume),
      Some(d.pages), Some(d.url), Some(d.doi), Some(d.notes), CitationKey(d.author, d.year, d.title))
  }

  /** Every field of the form is carried into the new source unchanged. */
  lemma SourceKeepsDraft(d: Draft, id: string)
    ensures DraftOf(SourceFromDraft(d, id)) == d
  {
  }

  /** The two sources the library starts with. */
  function SeedSources(): seq<Source> {
    [ Source("1", Journal, "The Impact of AI on Educational Outcomes", "Smith, J. & Johnson, M.", "2023",
        None, Some("Journal of Educational Technology"), Some("45"), Some("123-145"), None,
        Some("10.1016/j.edutech.2023.123456"), Some("Key study on AI effectiveness in classroom settings"),
        "smith2023impact"),
      Source("2", Book, "Modern Educational Approaches", "Brown, A.", "2022",
        Some("Academic Press"), None, None, None, None, None,
        Some("Comprehensive overview of contemporary teaching methods"), "brown2022modern") ]
  }

  /** `sources.filter(s => s.id !== id)`. */
  function RemoveById(sources: seq<Source>, id: string): (r: seq<Source>)
    ensures Seqs.IsSubsequence(r, sources)
    ensures forall i :: 0 <= i < |r| ==> r[i].id != id
    ensures forall i :: 0 <= i < |sources| && sources[i].id != id ==> sources[i] in r
    ensures forall x :: multiset(r)[x] == if x.id != id then multiset(sources)[x] else 0
  {
    var keep := (s: Source) => s.id != id;
    Seqs.FilterCounts(sources, keep);
    Seqs.FilterIsSubsequence(sources, keep);
    Seqs.Filter(sources, keep)
  }

  /** The form filled from resolved DOI metadata; `doi` is the trimmed DOI the user typed. */
  function PrefillDraft(m: DoiResolver.Metadata, doi: string): Draft {
    var kindName := if m.kind != "" then m.kind else "journal";
    Draft(
      TypeFromName(kindName).GetOr(Journal),
      m.title, Join(m.authors, ", "), m.year, "", m.journal, m.volume, m.pages, m.url,
      if m.doi != "" then m.doi else doi,
      "Imported from DOI: " + doi)
  }

  /**
   * Importing any non-empty DOI through the resolver fills a form that can be
   * added at once: a journal article whose DOI is the one typed.
   */
  lemma ImportedDraftCanBeAdded(doi: string)
    requires doi != ""
    ensures var d := PrefillDraft(DoiResolver.Resolve(Some(doi)).metadata, doi);
      CanAdd(d) && d.kind == Journal && d.doi == doi && d.notes == "Imported from DOI: " + doi
  {
    var r := DoiResolver.Resolve(Some(doi));
    assert r.Resolved?;
    PrefillComplete(r.metadata, doi);
  }

  lemma PrefillComplete(m: DoiResolver.Metadata, doi: string)
    requires m.title != "" && m.year != "" && m.authors != [] && m.authors[0] != ""
    requires m.kind == "journal" && m.doi == doi && doi != ""
    ensures var d := PrefillDraft(m, doi);
      CanAdd(d) && d.kind == Journal && d.doi == doi && d.notes == "Imported from DOI: " + doi
  {
    assert m.authors[0] <= Join(m.authors, ", ");
    assert TypeFromName("journal") == Some(Journal);
  }

  class CitationLibrary {
    var sources: seq<Source>
    var draft: Draft
    var showAddSource: bool
    var doiInput: string

    constructor()
      ensures sources == SeedSources() && draft == EmptyDraft()
      ensures !showAddSource && doiInput == ""
    {
      sources := SeedSources();
      draft := EmptyDraft();
      showAddSource := false;
      doiInput := "";
    }

    /** The form's change handlers replace the draft. */
    method EditDraft(d: Draft)
      modifies this
      ensures draft == d
      ensures sources == old(sources) && showAddSource == old(showAddSource) && doiInput == old(doiInput)
    {
      draft := d;
    }

    method EditDoiInput(text: string)
      modifies this
      ensures doiInput == text
      ensures sources == old(sources) && draft == old(draft) && showAddSource == old(showAddSource)
    {
      doiInput := text;
    }

    /**
     * `handleAddSource`: an incomplete form changes nothing; otherwise the new
     * source (with the caller's fresh `id`) is put in front of the list, the form
     * is reset and the dialog closed.
     */
    method AddSource(id: string)
      modifies this
      ensures !CanAdd(old(draft)) ==>
        sources == old(sources) && draft == old(draft) && showAddSource == old(showAddSource)
      ensures CanAdd(old(draft)) ==>
        && sources == [SourceFromDraft(old(draft), id)] + old(sources)
        && draft == EmptyDraft() && !showAddSource
      ensures doiInput == old(doiInput)
    {
      if CanAdd(draft) {
        var source := SourceFromDraft(draft, id);
        sources := [source] + sources;
        draft := EmptyDraft();
        showAddSource := false;
      }
    }

    /** `handleDeleteSource`: every source with the id goes; the rest keep their order. */
    method DeleteSource(id: string)
      modifies this
      ensures sources == RemoveById(old(sources), id)
      ensures draft == old(draft) && showAddSource == old(showAddSource) && doiInput == old(doiInput)
    {
      sources := RemoveById(sources, id);
    }

    /**
     * `handleDoiImport`. `reply` is what the resolver request produced: `None`
     * when the request or its JSON failed. A blank DOI input, a failed request or
     * an error status changes nothing; resolved metadata fills the form, clears
     * the DOI input and opens the dialog.
     */
    method ImportDoi(reply: Option<DoiResolver.Response>)
      modifies this
      ensures var doi := Trim(old(doiInput));
        if doi != "" && reply.Some? && reply.value.Resolved? then
          && draft == PrefillDraft(reply.value.metadata, doi)
          && doiInput == "" && showAddSource
        else
          draft == old(draft) && doiInput == old(doiInput) && showAddSource == old(showAddSource)
      ensures sources == old(sources)
    {
      var doi := Trim(doiInput);
      if doi == "" {
        return;
      }
      if reply.None? || reply.value.BadRequest? {
        return;
      }
      draft := PrefillDraft(reply.value.metadata, doi);
      doiInput := "";
      showAddSource := true;
    }
  }
}
