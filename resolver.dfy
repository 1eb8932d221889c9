/**
 * The mock DOI resolver behind `POST /api/citations/resolve`: a request
 * without a DOI is refused with status 400; otherwise one of three fixed
 * journal records is returned, chosen by the sum of the DOI's character
 * codes modulo 3, with the DOI itself echoed in the `doi` and `url` fields.
 */
module DoiResolver {
  import opened Wrappers

  /** The record the route returns under `metadata`. */
  datatype Metadata = Metadata(
    title: string,
    authors: seq<string>,
    journal: string,
    year: string,
    volume: string,
    pages: string,
    url: string,
    doi: string,
    kind: string)

  datatype Response =
    | BadRequest(status: int, error: string)
    | Resolved(metadata: Metadata)

  /** `doi.split('').reduce((acc, char) => acc + char.charCodeAt(0), 0)`. */
  function CharCodeSum(s: string): nat {
    if s == [] then 0 else CharCodeSum(s[..|s| - 1]) + s[|s| - 1] as nat
  }

  /** The sum of a concatenation is the sum of its parts, so the fold's order does not matter. */
  lemma {:induction false} CharCodeSumAppend(a: string, b: string)
    ensures CharCodeSum(a + b) == CharCodeSum(a) + CharCodeSum(b)
    decreases |b|
  {
    if b != [] {
      var b' := b[..|b| - 1];
      assert (a + b)[..|a + b| - 1] == a + b';
      CharCodeSumAppend(a, b');
    } else {
      assert a + b == a;
    }
  }

  /** The position of the chosen record: always 0, 1 or 2. */
  function RecordIndex(doi: string): (i: nat)
    ensures i < 3
    ensures i == CharCodeSum(doi) % 3
  {
    CharCodeSum(doi) % 3
  }

  /** `mockResponses[i]`: one of the three fixed records, with the requested DOI filled in. */
  function MockRecord(i: nat, doi: string): (m: Metadata)
    requires i < 3
    ensures Echoes(m, doi) && Complete(m)
  {
    if i == 0 then FirstRecord(doi) else if i == 1 then SecondRecord(doi) else ThirdRecord(doi)
  }

  /** A record carries the requested DOI, its `https://doi.org/` link, and the type "journal". */
  predicate Echoes(m: Metadata, doi: string) {
    m.doi == doi && m.url == "https://doi.org/" + doi && m.kind == "journal"
  }

  /** Between two and four authors, a named first author, a title and a year. */
  predicate Complete(m: Metadata) {
    2 <= |m.authors| <= 4 && m.authors[0] != "" && m.title != "" && m.year != ""
  }

  function FirstRecord(doi: string): (m: Metadata)
    ensures Echoes(m, doi) && Complete(m) && |m.authors| == 3
  {
    Metadata(
      "The Impact of Artificial Intelligence on Educational Outcomes: A Systematic Review",
      ["Smith, J. A.", "Johnson, M. K.", "Williams, R. L."],
      "Journal of Educational Technology Research", "2023", "45", "123-145",
      "https://doi.org/" + doi, doi, "journal")
  }

  function SecondRecord(doi: string): (m: Metadata)
    ensures Echoes(m, doi) && Complete(m) && |m.authors| == 2
  {
    Metadata(
      "Machine Learning Applications in Academic Writing: Current Trends and Future Directions",
      ["Chen, L.", "Rodriguez, A. M."],
      "Computers & Education", "2024", "198", "104-118",
      "https://doi.org/" + doi, doi, "journal")
  }

  function ThirdRecord(doi: string): (m: Metadata)
    ensures Echoes(m, doi) && Complete(m) && |m.authors| == 4
  {
    Metadata(
      "Digital Transformation in Higher Education: A Comprehensive Analysis",
      ["Brown, K. S.", "Davis, P. J.", "Thompson, E. R.", "Lee, S. H."],
      "Educational Technology & Society", "2023", "26", "89-102",
      "https://doi.org/" + doi, doi, "journal")
  }

  /**
   * The route. `doi` is the request body's `doi` field (`None` when absent).
   * A missing or empty DOI gets status 400 and no metadata; any other DOI gets
   * a journal record that echoes it, with a non-empty author list and a
   * non-empty title and year.
   */
  function Resolve(doi: Option<string>): (r: Response)
    ensures r.BadRequest? <==> doi.None? || doi.value == ""
    ensures r.BadRequest? ==> r.status == 400 && r.error == "Missing DOI"
    ensures r.Resolved? ==> r.metadata == MockRecord(RecordIndex(doi.value), doi.value)
    ensures r.Resolved? ==> Echoes(r.metadata, doi.value) && Complete(r.metadata)
  {
    if doi.None? || doi.value == "" then BadRequest(400, "Missing DOI")
    else Resolved(MockRecord(RecordIndex(doi.value), doi.value))
  }

  /**
   * Rearranging the two halves of a DOI does not change the record chosen:
   * only the multiset of characters matters to the checksum.
   */
  lemma SwappedHalvesSameRecord(a: string, b: string)
    ensures RecordIndex(a + b) == RecordIndex(b + a)
  {
    CharCodeSumAppend(a, b);
    CharCodeSumAppend(b, a);
  }
}
