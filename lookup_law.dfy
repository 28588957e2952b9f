/**
 * The `lookup_law` tool: resolve the user's state to a jurisdiction of the
 * corpus, retrieve and rerank chunks, and assemble one record per chunk,
 * with a note in front when the state's own law is not in the corpus.
 */
module LookupLaw {
  import opened Wrappers
  import opened Text
  import opened Context

  /** A reranked chunk; absent keys are `None`. */
  datatype Chunk = Chunk(
    content: Option<string>,
    citation: Option<string>,
    jurisdiction: Option<string>,
    sourceUrl: Option<string>,
    parentChunkId: Option<string>,
    rerankScore: Option<real>,
    rrfScore: Option<real>)

  /** A record of the answer: a passage, or the note about an unsupported state. */
  datatype LawRecord =
    | Passage(content: string, citation: string, jurisdiction: string, sourceUrl: string, relevanceScore: real)
    | Note(note: string)

  /** The tool answers with a message or with a list of records. */
  datatype ToolOutput = Reply(message: string) | Records(records: seq<LawRecord>)

  const UnsupportedStates: seq<string> := ["VIC", "SA", "WA", "TAS", "NT"]
  const Apology := "Sorry, I couldn't search the legal database at this time. Please try again later."
  const NoResultAdvice := ". Try different keywords or check another jurisdiction."

  /** `STATE_TO_JURISDICTION.get(state)` */
  function MappedJurisdiction(state: string): Option<string> {
    if state == "NSW" then Some("NSW")
    else if state == "QLD" then Some("QLD")
    else if state == "FEDERAL" then Some("FEDERAL")
    else if state == "ACT" then Some("FEDERAL")
    else None
  }

  predicate IsUnsupported(state: string) {
    state in UnsupportedStates
  }

  /** The jurisdiction searched: the mapped one, or federal law for an unsupported state. */
  function ResolveJurisdiction(state: string): (j: Option<string>)
    ensures j.Some? <==> state in {"NSW", "QLD", "FEDERAL", "ACT", "VIC", "SA", "WA", "TAS", "NT"}
    ensures j.Some? ==> j.value in {"NSW", "QLD", "FEDERAL"}
  {
    if IsUnsupported(state) then Some("FEDERAL") else MappedJurisdiction(state)
  }

  function NoResultMessage(query: string, state: string): string {
    var j := ResolveJurisdiction(state);
    "No legislation found for '" + query + "'"
      + (if j.Some? then " in " + (if !IsUnsupported(state) then state else "Federal law") else "")
      + NoResultAdvice
  }

  function UnsupportedNote(state: string): string {
    "Note: " + state + " legislation is not yet available in our database. "
      + "Showing relevant Federal law instead. For state-specific advice, "
      + "please consult a legal professional."
  }

  /**
   * `_get_parent_content`: no query without a (truthy) parent id; otherwise
   * `fetchParent(id)`, which is `None` when the row has no content or the
   * query raised.
   */
  function ParentContent(chunk: Chunk, fetchParent: string -> Option<string>): Option<string> {
    if !Truthy(chunk.parentChunkId) then None else fetchParent(chunk.parentChunkId.value)
  }

  /** The record of one chunk, with the dictionary defaults. */
  function PassageOf(chunk: Chunk, state: string, fetchParent: string -> Option<string>): LawRecord {
    var parent := ParentContent(chunk, fetchParent);
    Passage(
      if Truthy(parent) then parent.value else chunk.content.GetOr(""),
      chunk.citation.GetOr("Unknown"),
      chunk.jurisdiction.GetOr(state),
      chunk.sourceUrl.GetOr(""),
      chunk.rerankScore.GetOr(chunk.rrfScore.GetOr(0.0)))
  }

  function Passages(chunks: seq<Chunk>, state: string, fetchParent: string -> Option<string>): (r: seq<LawRecord>)
    ensures |r| == |chunks|
  {
    seq(|chunks|, i requires 0 <= i < |chunks| => PassageOf(chunks[i], state, fetchParent))
  }

  /**
   * `_search_and_rerank`: `search(query, jurisdiction, top_k)` is the hybrid
   * retriever (an exception is `Err`); `rerank(query, documents, top_n)` the
   * reranker, which is not called when retrieval finds nothing.
   */
  function SearchAndRerank(query: string, jurisdiction: Option<string>,
                           search: (string, Option<string>, int) -> Result<seq<Chunk>, string>,
                           rerank: (string, seq<Chunk>, int) -> seq<Chunk>): Result<seq<Chunk>, string>
  {
    match search(query, jurisdiction, 20)
    case Err(e) => Err(e)
    case Ok(results) => if results == [] then Ok([]) else Ok(rerank(query, results, 5))
  }

  /** The records of a non-empty result, with the note in front for an unsupported state. */
  function Assembled(chunks: seq<Chunk>, state: string, fetchParent: string -> Option<string>): seq<LawRecord> {
    var formatted := Passages(chunks, state, fetchParent);
    if IsUnsupported(state) && formatted != [] then [Note(UnsupportedNote(state))] + formatted else formatted
  }

  /** The tool; any exception gives the apology. */
  function LookupLawResult(query: string, state: string,
                           search: (string, Option<string>, int) -> Result<seq<Chunk>, string>,
                           rerank: (string, seq<Chunk>, int) -> seq<Chunk>,
                           fetchParent: string -> Option<string>): ToolOutput
  {
    match SearchAndRerank(query, ResolveJurisdiction(state), search, rerank)
    case Err(_) => Reply(Apology)
    case Ok(results) =>
      if results == [] then Reply(NoResultMessage(query, state))
      else Records(Assembled(results, state, fetchParent))
  }

  /** The assembly loop and the insertion of the note. */
  method LookupLaw(query: string, state: string,
                   search: (string, Option<string>, int) -> Result<seq<Chunk>, string>,
                   rerank: (string, seq<Chunk>, int) -> seq<Chunk>,
                   fetchParent: string -> Option<string>)
    returns (out: ToolOutput)
    ensures out == LookupLawResult(query, state, search, rerank, fetchParent)
  {
    var jurisdiction := MappedJurisdiction(state);
    var unsupported := state in UnsupportedStates;
    if unsupported {
      jurisdiction := Some("FEDERAL");
    }
    var results := SearchAndRerank(query, jurisdiction, search, rerank);
    if results.Err? {
      return Reply(Apology);
    }
    var chunks := results.value;
    if chunks == [] {
      return Reply(NoResultMessage(query, state));
    }
    var formatted: seq<LawRecord> := [];
    for i := 0 to |chunks|
      invariant formatted == Passages(chunks[..i], state, fetchParent)
    {
      formatted := formatted + [PassageOf(chunks[i], state, fetchParent)];
    }
    assert chunks[..|chunks|] == chunks;
    if unsupported && formatted != [] {
      formatted := [Note(UnsupportedNote(state))] + formatted;
    }
    return Records(formatted);
  }

  // ---------------------------------------------------------------------
  // Properties
  // ---------------------------------------------------------------------

  /** The jurisdiction table. */
  lemma JurisdictionTable(state: string)
    ensures state == "NSW" ==> ResolveJurisdiction(state) == Some("NSW") && !IsUnsupported(state)
    ensures state == "QLD" ==> ResolveJurisdiction(state) == Some("QLD") && !IsUnsupported(state)
    ensures state in {"FEDERAL", "ACT"} ==> ResolveJurisdiction(state) == Some("FEDERAL") && !IsUnsupported(state)
    ensures state in {"VIC", "SA", "WA", "TAS", "NT"} ==> ResolveJurisdiction(state) == Some("FEDERAL") && IsUnsupported(state)
  {
  }

  /**
   * The no-result message names the state only when a jurisdiction was
   * resolved, and federal law for an unsupported state.
   */
  lemma NoResultMessageShape(query: string, state: string)
    ensures var head := "No legislation found for '" + query + "'";
      && (ResolveJurisdiction(state).None? ==> NoResultMessage(query, state) == head + NoResultAdvice)
      && (IsUnsupported(state) ==> NoResultMessage(query, state) == head + " in Federal law" + NoResultAdvice)
      && (ResolveJurisdiction(state).Some? && !IsUnsupported(state) ==>
            NoResultMessage(query, state) == head + " in " + state + NoResultAdvice)
  {
    var head := "No legislation found for '" + query + "'";
    var j := ResolveJurisdiction(state);
    if j.None? {
      assert NoResultMessage(query, state) == head + "" + NoResultAdvice;
    } else if IsUnsupported(state) {
      assert " in " + "Federal law" == " in Federal law";
      assert NoResultMessage(query, state) == head + (" in " + "Federal law") + NoResultAdvice;
    } else {
      assert NoResultMessage(query, state) == head + (" in " + state) + NoResultAdvice;
    }
  }

  /**
   * One record per chunk, in order, after the note, which is there exactly
   * for an unsupported state.
   */
  lemma AssembledShape(chunks: seq<Chunk>, state: string, fetchParent: string -> Option<string>)
    requires chunks != []
    ensures var r := Assembled(chunks, state, fetchParent);
      var offset := if IsUnsupported(state) then 1 else 0;
      && |r| == |chunks| + offset
      && (r[0].Note? <==> IsUnsupported(state))
      && (forall k :: 0 <= k < |chunks| ==> r[k + offset] == PassageOf(chunks[k], state, fetchParent))
  {
    var formatted := Passages(chunks, state, fetchParent);
    assert formatted[0] == PassageOf(chunks[0], state, fetchParent);
    NoteThenRecords(Note(UnsupportedNote(state)), formatted, IsUnsupported(state));
  }

  /** A note put before the records shifts them by one and is the only note at the head. */
  lemma NoteThenRecords(note: LawRecord, formatted: seq<LawRecord>, withNote: bool)
    requires note.Note? && formatted != [] && !formatted[0].Note?
    ensures var r := if withNote then [note] + formatted else formatted;
      var offset := if withNote then 1 else 0;
      && |r| == |formatted| + offset
      && (r[0].Note? <==> withNote)
      && (forall k :: 0 <= k < |formatted| ==> r[k + offset] == formatted[k])
  {
  }

  /**
   * A passage holds the parent's content when that is non-empty, else the
   * chunk's own; the citation, jurisdiction and URL default to "Unknown",
   * the state and "".
   */
  lemma PassageContent(chunk: Chunk, state: string, fetchParent: string -> Option<string>)
    ensures var p := PassageOf(chunk, state, fetchParent);
      var parent := ParentContent(chunk, fetchParent);
      && (Truthy(parent) ==> p.content == parent.value)
      && (!Truthy(parent) ==> p.content == chunk.content.GetOr(""))
      && (chunk.citation.None? ==> p.citation == "Unknown")
      && (chunk.jurisdiction.None? ==> p.jurisdiction == state)
      && (chunk.sourceUrl.None? ==> p.sourceUrl == "")
  {
  }

  /** Without a parent id the parent table is not queried. */
  lemma NoParentNoQuery(chunk: Chunk, fetch1: string -> Option<string>, fetch2: string -> Option<string>)
    requires !Truthy(chunk.parentChunkId)
    ensures ParentContent(chunk, fetch1) == None
    ensures ParentContent(chunk, fetch1) == ParentContent(chunk, fetch2)
  {
  }

  /**
   * Retrieval that finds nothing gives [] without the reranker; otherwise
   * the reranker picks 5 of the 20 retrieved chunks; a retrieval error
   * ends in the apology.
   */
  lemma SearchAndRerankFlow(query: string, state: string,
                            search: (string, Option<string>, int) -> Result<seq<Chunk>, string>,
                            rerank1: (string, seq<Chunk>, int) -> seq<Chunk>,
                            rerank2: (string, seq<Chunk>, int) -> seq<Chunk>,
                            fetchParent: string -> Option<string>)
    ensures var j := ResolveJurisdiction(state);
      search(query, j, 20) == Ok([]) ==>
        && SearchAndRerank(query, j, search, rerank1) == Ok([])
        && LookupLawResult(query, state, search, rerank1, fetchParent) == LookupLawResult(query, state, search, rerank2, fetchParent)
        && LookupLawResult(query, state, search, rerank1, fetchParent) == Reply(NoResultMessage(query, state))
    ensures var j := ResolveJurisdiction(state);
      search(query, j, 20).Ok? && search(query, j, 20).value != [] ==>
        SearchAndRerank(query, j, search, rerank1) == Ok(rerank1(query, search(query, j, 20).value, 5))
    ensures var j := ResolveJurisdiction(state);
      search(query, j, 20).Err? ==> LookupLawResult(query, state, search, rerank1, fetchParent) == Reply(Apology)
  {
  }
}
