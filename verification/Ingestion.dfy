/**
 * Article ingestion of backend/services/ingestion/service.py: a batch from a connector is deduplicated by
 * the hash of its URLs and saved. Whether a save succeeds is a parameter, one answer per batch position.
 */
module Ingestion {
  import opened Wrappers
  import opened Slicing

  type Hash = string

  datatype RawArticle = RawArticle(url: string, body: string)

  /** A row of the article table; rows written elsewhere may carry no URL hash. */
  datatype Article = Article(urlHash: Option<Hash>, raw: RawArticle)

  datatype Stats = Stats(fetched: nat, deduplicated: nat, saved: nat)

  datatype Verdict = Duplicate | Saved | Failed

  /** What `_get_existing_urls` collects: the hashes that are present and not empty. */
  ghost predicate Stored(rows: seq<Article>, h: Hash) {
    h != "" && exists k :: 0 <= k < |rows| && rows[k].urlHash == Some(h)
  }

  ghost predicate DistinctHashes(rows: seq<Article>) {
    forall i, j :: 0 <= i < j < |rows| && rows[i].urlHash.Some? && rows[i].urlHash.value != "" ==>
        rows[i].urlHash != rows[j].urlHash
  }

  /** Known before the batch, or saved by an earlier article of it. */
  ghost predicate Seen(hash: string -> Hash, known: iset<Hash>, batch: seq<RawArticle>, verdicts: seq<Verdict>, h: Hash)
    requires |verdicts| <= |batch|
  {
    h in known || exists j :: 0 <= j < |verdicts| && verdicts[j] == Saved && hash(batch[j].url) == h
  }

  /** The verdict on one article, in terms of the verdicts before it. */
  ghost function Judge(hash: string -> Hash, known: iset<Hash>, saves: nat -> bool,
                       batch: seq<RawArticle>, verdicts: seq<Verdict>): Verdict
    requires |verdicts| < |batch|
  {
    if Seen(hash, known, batch, verdicts, hash(batch[|verdicts|].url)) then Duplicate
    else if saves(|verdicts|) then Saved
    else Failed
  }

  ghost predicate AreVerdicts(hash: string -> Hash, known: iset<Hash>, saves: nat -> bool,
                              batch: seq<RawArticle>, verdicts: seq<Verdict>) {
    && |verdicts| <= |batch|
    && (forall i :: 0 <= i < |verdicts| ==> verdicts[i] == Judge(hash, known, saves, batch, verdicts[..i]))
  }

  function Count(verdicts: seq<Verdict>, v: Verdict): nat {
    if verdicts == [] then 0
    else Count(verdicts[..|verdicts| - 1], v) + (if verdicts[|verdicts| - 1] == v then 1 else 0)
  }

  function RowFor(hash: string -> Hash, raw: RawArticle): Article {
    Article(Some(hash(raw.url)), raw)
  }

  /** The rows of the saved articles, in batch order. */
  function SavedRows(hash: string -> Hash, batch: seq<RawArticle>, verdicts: seq<Verdict>): (rows: seq<Article>)
    requires |verdicts| <= |batch|
    ensures |rows| == Count(verdicts, Saved)
  {
    if verdicts == [] then []
    else
      var n := |verdicts| - 1;
      SavedRows(hash, batch, verdicts[..n]) + if verdicts[n] == Saved then [RowFor(hash, batch[n])] else []
  }

  ghost function KnownIn(rows: seq<Article>): iset<Hash> {
    iset h | Stored(rows, h)
  }

  /** One ingestion of a batch: its effect on the table and what it reports. */
  ghost predicate Ingested(hash: string -> Hash, saves: nat -> bool, before: seq<Article>, batch: seq<RawArticle>,
                           verdicts: seq<Verdict>, after: seq<Article>) {
    && |verdicts| == |batch|
    && AreVerdicts(hash, KnownIn(before), saves, batch, verdicts)
    && after == before + SavedRows(hash, batch, verdicts)
  }

  class IngestionService {
    const hash: string -> Hash
    const hasPublisher: bool
    var articles: seq<Article>
    var published: seq<nat>  // positions in the table of the articles announced

    constructor (hash: string -> Hash, hasPublisher: bool)
      ensures this.hash == hash && this.hasPublisher == hasPublisher && articles == [] && published == []
    {
      this.hash, this.hasPublisher := hash, hasPublisher;
      articles, published := [], [];
    }

    /** `_get_existing_urls`. */
    method GetExistingUrls() returns (hashes: set<Hash>)
      ensures forall h :: h in hashes <==> Stored(articles, h)
      ensures forall h :: h in hashes <==> h != "" && exists k :: 0 <= k < |articles| && articles[k].urlHash == Some(h)
    {
      hashes := {};
      for i := 0 to |articles|
        invariant forall h :: h in hashes <==> Stored(articles[..i], h)
      {
        StoredStep(articles, i);
        var uh := articles[i].urlHash;
        if uh.Some? && uh.value != "" {
          hashes := hashes + {uh.value};
        }
      }
      assert articles[..|articles|] == articles;
    }

    /** `_save_article`, answering the new article's position or nothing. */
    method SaveArticle(raw: RawArticle, succeeds: bool) returns (id: Option<nat>)
      modifies this`articles
      ensures id == if succeeds then Some(|old(articles)|) else None
      ensures articles == old(articles) + if succeeds then [Article(Some(hash(raw.url)), raw)] else []
    {
      if !succeeds {
        return None;
      }
      articles := articles + [RowFor(hash, raw)];
      id := Some(|articles| - 1);
    }

    /** The loop of `ingest` that announces the new articles. */
    method Publish(savedIds: seq<nat>)
      modifies this`published
      ensures published == old(published) + if hasPublisher then savedIds else []
    {
      for i := 0 to |savedIds|
        invariant published == old(published) + if hasPublisher then savedIds[..i] else []
      {
        if hasPublisher {
          published := published + [savedIds[i]];
        }
      }
      assert savedIds[..|savedIds|] == savedIds;
    }

    /** `ingest`. */
    method Ingest(fetched: seq<RawArticle>, batchSize: int, saves: nat -> bool)
        returns (stats: Stats, ghost verdicts: seq<Verdict>)
      modifies this
      ensures Ingested(hash, saves, old(articles), fetched[..SliceLength(|fetched|, batchSize)], verdicts, articles)
      ensures stats == Stats(|fetched|, Count(verdicts, Duplicate), Count(verdicts, Saved))
      ensures published == old(published) + if hasPublisher then Positions(|old(articles)|, stats.saved) else []
    {
      var existing := GetExistingUrls();
      var batch := fetched[..SliceLength(|fetched|, batchSize)];
      var deduplicated, saved, savedIds;
      deduplicated, saved, savedIds, verdicts := IngestBatch(batch, existing, saves);
      Publish(savedIds);
      stats := Stats(|fetched|, deduplicated, saved);
    }

    /** The main loop of `ingest`. */
    method IngestBatch(batch: seq<RawArticle>, existingUrls: set<Hash>, saves: nat -> bool)
        returns (deduplicated: nat, saved: nat, savedIds: seq<nat>, ghost verdicts: seq<Verdict>)
      requires forall h :: h in existingUrls <==> Stored(articles, h)
      modifies this`articles
      ensures Ingested(hash, saves, old(articles), batch, verdicts, articles)
      ensures deduplicated == Count(verdicts, Duplicate) && saved == Count(verdicts, Saved)
      ensures savedIds == Positions(|old(articles)|, saved)
    {
      ghost var before := articles;
      var existing := existingUrls;
      verdicts := [];
      deduplicated, saved, savedIds := 0, 0, [];
      for i := 0 to |batch|
        invariant |verdicts| == i
        invariant Progress(hash, saves, before, batch, verdicts, existing, articles)
        invariant Counted(before, verdicts, deduplicated, saved, savedIds)
      {
        ghost var v := JudgeOne(hash, saves, before, batch, verdicts, existing, articles);
        CountOne(before, verdicts, deduplicated, saved, savedIds, v);
        ProgressKeepsLength(hash, saves, before, batch, verdicts, existing, articles);
        verdicts := verdicts + [v];
        var verdict, id;
        verdict, id, existing := IngestArticle(batch[i], existing, saves(i));
        match verdict {
          case Duplicate => deduplicated := deduplicated + 1;
          case Saved => saved, savedIds := saved + 1, savedIds + [id];
          case Failed =>
        }
      }
    }

    /** One round of the main loop. */
    method IngestArticle(raw: RawArticle, existing: set<Hash>, succeeds: bool)
        returns (verdict: Verdict, id: nat, known: set<Hash>)
      modifies this`articles
      ensures verdict == if hash(raw.url) in existing then Duplicate else if succeeds then Saved else Failed
      ensures verdict == Saved ==> id == |old(articles)|
      ensures known == existing + if verdict == Saved then {hash(raw.url)} else {}
      ensures articles == old(articles) + if verdict == Saved then [Article(Some(hash(raw.url)), raw)] else []
    {
      var urlHash := hash(raw.url);
      if urlHash in existing {
        return Duplicate, 0, existing;
      }
      var result := SaveArticle(raw, succeeds);
      if result.None? {
        return Failed, 0, existing;
      }
      return Saved, result.value, existing + {urlHash};
    }
  }

  /** What the main loop has reached: the verdicts so far, the table, and the hashes to compare with. */
  ghost predicate Progress(hash: string -> Hash, saves: nat -> bool, before: seq<Article>, batch: seq<RawArticle>,
                           verdicts: seq<Verdict>, existing: set<Hash>, articles: seq<Article>) {
    && |verdicts| <= |batch|
    && AreVerdicts(hash, KnownIn(before), saves, batch, verdicts)
    && (forall h :: h in existing <==> Seen(hash, KnownIn(before), batch, verdicts, h))
    && articles == before + SavedRows(hash, batch, verdicts)
  }

  ghost predicate Counted(before: seq<Article>, verdicts: seq<Verdict>, deduplicated: nat, saved: nat,
                          savedIds: seq<nat>) {
    && deduplicated == Count(verdicts, Duplicate)
    && saved == Count(verdicts, Saved)
    && savedIds == Positions(|before|, saved)
  }

  lemma ProgressKeepsLength(hash: string -> Hash, saves: nat -> bool, before: seq<Article>, batch: seq<RawArticle>,
                            verdicts: seq<Verdict>, existing: set<Hash>, articles: seq<Article>)
    requires Progress(hash, saves, before, batch, verdicts, existing, articles)
    ensures |articles| == |before| + Count(verdicts, Saved)
  {
  }

  /** `n` consecutive positions. */
  function Positions(first: nat, n: nat): (positions: seq<nat>)
    ensures |positions| == n && forall k :: 0 <= k < n ==> positions[k] == first + k
  {
    seq(n, k => first + k)
  }

  /** Everything one more verdict changes. */
  lemma JudgeOne(hash: string -> Hash, saves: nat -> bool, before: seq<Article>, batch: seq<RawArticle>,
                 verdicts: seq<Verdict>, existing: set<Hash>, articles: seq<Article>)
    returns (v: Verdict)
    requires |verdicts| < |batch| && Progress(hash, saves, before, batch, verdicts, existing, articles)
    ensures var h := hash(batch[|verdicts|].url);
            && v == (if h in existing then Duplicate else if saves(|verdicts|) then Saved else Failed)
            && Progress(hash, saves, before, batch, verdicts + [v],
                        existing + (if v == Saved then {h} else {}),
                        articles + if v == Saved then [RowFor(hash, batch[|verdicts|])] else [])
  {
    v := Judge(hash, KnownIn(before), saves, batch, verdicts);
    VerdictStep(hash, KnownIn(before), saves, batch, verdicts);
    RowsStep(hash, batch, verdicts, v);
    SeenStep(hash, KnownIn(before), batch, verdicts, v);
  }

  lemma CountOne(before: seq<Article>, verdicts: seq<Verdict>, deduplicated: nat, saved: nat, savedIds: seq<nat>,
                 v: Verdict)
    requires Counted(before, verdicts, deduplicated, saved, savedIds)
    ensures saved == Count(verdicts, Saved)
    ensures Counted(before, verdicts + [v], deduplicated + (if v == Duplicate then 1 else 0),
                    saved + (if v == Saved then 1 else 0),
                    savedIds + if v == Saved then [|before| + saved] else [])
  {
  }

  lemma StoredStep(rows: seq<Article>, i: nat)
    requires i < |rows|
    ensures forall h :: Stored(rows[..i + 1], h) <==> Stored(rows[..i], h) || (h != "" && rows[i].urlHash == Some(h))
  {
  }

  /** Judging one more article. */
  lemma VerdictStep(hash: string -> Hash, known: iset<Hash>, saves: nat -> bool,
                    batch: seq<RawArticle>, verdicts: seq<Verdict>)
    requires |verdicts| < |batch| && AreVerdicts(hash, known, saves, batch, verdicts)
    ensures AreVerdicts(hash, known, saves, batch, verdicts + [Judge(hash, known, saves, batch, verdicts)])
  {
  }

  /** Article by article, the rows added are those of the saved ones, each with its hash. */
  lemma RowsStep(hash: string -> Hash, batch: seq<RawArticle>, verdicts: seq<Verdict>, v: Verdict)
    requires |verdicts| < |batch|
    ensures SavedRows(hash, batch, []) == []
    ensures var raw := batch[|verdicts|];
            SavedRows(hash, batch, verdicts + [v])
            == SavedRows(hash, batch, verdicts) + if v == Saved then [Article(Some(hash(raw.url)), raw)] else []
  {
  }

  lemma SeenStep(hash: string -> Hash, known: iset<Hash>, batch: seq<RawArticle>, verdicts: seq<Verdict>, v: Verdict)
    requires |verdicts| < |batch|
    ensures forall g :: Seen(hash, known, batch, verdicts + [v], g)
                   <==> Seen(hash, known, batch, verdicts, g) || (v == Saved && g == hash(batch[|verdicts|].url))
  {
  }

  // ---- what the verdicts mean ------------------------------------------------

  /** An article is a duplicate if its hash was stored before or an earlier one of the batch with this hash was saved;
      else it is saved or failed as its save goes. */
  lemma VerdictsMean(hash: string -> Hash, saves: nat -> bool, before: seq<Article>, batch: seq<RawArticle>,
                     verdicts: seq<Verdict>, after: seq<Article>, i: nat)
    requires Ingested(hash, saves, before, batch, verdicts, after) && i < |batch|
    ensures var h := hash(batch[i].url);
            var known := h != "" && exists k :: 0 <= k < |before| && before[k].urlHash == Some(h);
            var taken := exists j :: 0 <= j < i && verdicts[j] == Saved && hash(batch[j].url) == h;
            verdicts[i] == if known || taken then Duplicate else if saves(i) then Saved else Failed
  {
    var h := hash(batch[i].url);
    assert verdicts[i] == Judge(hash, KnownIn(before), saves, batch, verdicts[..i]);
    if j :| 0 <= j < i && verdicts[j] == Saved && hash(batch[j].url) == h {
      assert verdicts[..i][j] == Saved;
    }
  }

  /** A count is the number of articles with that verdict. */
  lemma {:induction false} CountIsNumber(verdicts: seq<Verdict>, v: Verdict)
    ensures Count(verdicts, v) == |set k | 0 <= k < |verdicts| && verdicts[k] == v|
  {
    if verdicts != [] {
      var n := |verdicts| - 1;
      CountIsNumber(verdicts[..n], v);
      var before, all := set k | 0 <= k < n && verdicts[..n][k] == v, set k | 0 <= k < |verdicts| && verdicts[k] == v;
      assert forall k :: k in all <==> k in before || (k == n && verdicts[n] == v);
      assert all == if verdicts[n] == v then before + {n} else before;
    }
  }

  // ---- What an ingestion keeps ------------------------------------------------------------------

  /** Every article of the batch is saved, deduplicated or failed, and counted once. */
  lemma {:induction false} VerdictsAddUp(verdicts: seq<Verdict>)
    ensures Count(verdicts, Saved) + Count(verdicts, Duplicate) + Count(verdicts, Failed) == |verdicts|
  {
    if verdicts != [] {
      VerdictsAddUp(verdicts[..|verdicts| - 1]);
    }
  }

  ghost predicate StoredAreSeen(hash: string -> Hash, before: seq<Article>, batch: seq<RawArticle>,
                                verdicts: seq<Verdict>)
    requires |verdicts| <= |batch|
  {
    forall h ::
      Stored(before + SavedRows(hash, batch, verdicts), h) <==> Seen(hash, KnownIn(before), batch, verdicts, h)
  }

  /** The hashes stored afterwards are the old ones and those of the saved articles. */
  lemma {:induction false} StoredIsSeen(hash: string -> Hash, saves: nat -> bool, before: seq<Article>,
                                        batch: seq<RawArticle>, verdicts: seq<Verdict>)
    requires forall u :: hash(u) != ""
    requires AreVerdicts(hash, KnownIn(before), saves, batch, verdicts)
    ensures StoredAreSeen(hash, before, batch, verdicts)
  {
    if verdicts == [] {
      assert before + SavedRows(hash, batch, verdicts) == before;
    } else {
      var n := |verdicts| - 1;
      LastVerdict(hash, KnownIn(before), saves, batch, verdicts);
      StoredIsSeen(hash, saves, before, batch, verdicts[..n]);
      StoredAreSeenStep(hash, before, batch, verdicts[..n], verdicts[n]);
    }
  }

  /** No two rows come to share a URL hash. */
  lemma {:induction false} HashesStayDistinct(hash: string -> Hash, saves: nat -> bool, before: seq<Article>,
                                              batch: seq<RawArticle>, verdicts: seq<Verdict>)
    requires forall u :: hash(u) != ""
    requires AreVerdicts(hash, KnownIn(before), saves, batch, verdicts) && DistinctHashes(before)
    ensures DistinctHashes(before + SavedRows(hash, batch, verdicts))
  {
    if verdicts == [] {
      assert before + SavedRows(hash, batch, verdicts) == before;
    } else {
      var n := |verdicts| - 1;
      LastVerdict(hash, KnownIn(before), saves, batch, verdicts);
      HashesStayDistinct(hash, saves, before, batch, verdicts[..n]);
      StoredIsSeen(hash, saves, before, batch, verdicts[..n]);
      DistinctStep(hash, before, batch, verdicts[..n], verdicts[n]);
    }
  }

  lemma LastVerdict(hash: string -> Hash, known: iset<Hash>, saves: nat -> bool,
                    batch: seq<RawArticle>, verdicts: seq<Verdict>)
    requires verdicts != [] && AreVerdicts(hash, known, saves, batch, verdicts)
    ensures var init := verdicts[..|verdicts| - 1];
            && AreVerdicts(hash, known, saves, batch, init)
            && verdicts == init + [Judge(hash, known, saves, batch, init)]
  {
  }

  lemma DistinctStep(hash: string -> Hash, before: seq<Article>, batch: seq<RawArticle>,
                     verdicts: seq<Verdict>, v: Verdict)
    requires |verdicts| < |batch| && StoredAreSeen(hash, before, batch, verdicts)
    requires v == Saved ==> !Seen(hash, KnownIn(before), batch, verdicts, hash(batch[|verdicts|].url))
    requires DistinctHashes(before + SavedRows(hash, batch, verdicts))
    ensures DistinctHashes(before + SavedRows(hash, batch, verdicts + [v]))
  {
    var so := before + SavedRows(hash, batch, verdicts);
    RowsStep(hash, batch, verdicts, v);
    if v == Saved {
      var row := RowFor(hash, batch[|verdicts|]);
      assert before + SavedRows(hash, batch, verdicts + [v]) == so + [row];
      NewHashStaysDistinct(so, row);
    } else {
      assert before + SavedRows(hash, batch, verdicts + [v]) == so;
    }
  }

  lemma StoredAreSeenStep(hash: string -> Hash, before: seq<Article>, batch: seq<RawArticle>,
                          verdicts: seq<Verdict>, v: Verdict)
    requires |verdicts| < |batch| && StoredAreSeen(hash, before, batch, verdicts)
    requires hash(batch[|verdicts|].url) != ""
    ensures StoredAreSeen(hash, before, batch, verdicts + [v])
  {
    var so := before + SavedRows(hash, batch, verdicts);
    var after := before + SavedRows(hash, batch, verdicts + [v]);
    RowsStep(hash, batch, verdicts, v);
    SeenStep(hash, KnownIn(before), batch, verdicts, v);
    if v == Saved {
      assert after == so + [RowFor(hash, batch[|verdicts|])];
      assert after[..|so|] == so && after[..|so| + 1] == after;
      StoredStep(after, |so|);
    } else {
      assert after == so;
    }
  }

  lemma NewHashStaysDistinct(rows: seq<Article>, row: Article)
    requires row.urlHash.Some? && !Stored(rows, row.urlHash.value)
    ensures DistinctHashes(rows) ==> DistinctHashes(rows + [row])
  {
  }

  /** An article's hash is stored after its batch unless every one of its tries failed. */
  lemma UnlessFailedItIsStored(hash: string -> Hash, saves: nat -> bool, before: seq<Article>,
                               batch: seq<RawArticle>, verdicts: seq<Verdict>, after: seq<Article>, i: nat)
    requires forall u :: hash(u) != ""
    requires Ingested(hash, saves, before, batch, verdicts, after) && i < |batch|
    ensures Stored(after, hash(batch[i].url))
       <==> exists j :: 0 <= j < |batch| && hash(batch[j].url) == hash(batch[i].url) && verdicts[j] != Failed
  {
    var h := hash(batch[i].url);
    StoredIsSeen(hash, saves, before, batch, verdicts);
    if Stored(after, h) {
      if Stored(before, h) {
        assert verdicts[i] == Judge(hash, KnownIn(before), saves, batch, verdicts[..i]) == Duplicate;
      }
    }
    forall j | 0 <= j < |batch| && hash(batch[j].url) == h && verdicts[j] != Failed ensures Stored(after, h) {
      assert verdicts[j] == Judge(hash, KnownIn(before), saves, batch, verdicts[..j]);
      if Seen(hash, KnownIn(before), batch, verdicts[..j], h) && h !in KnownIn(before) {
        var k :| 0 <= k < j && verdicts[..j][k] == Saved && hash(batch[k].url) == h;
        assert verdicts[k] == Saved;
      }
    }
  }

  /** Without failures, the table ends with exactly the old hashes and those of the batch. */
  lemma FullySavedBatch(hash: string -> Hash, saves: nat -> bool, before: seq<Article>,
                        batch: seq<RawArticle>, verdicts: seq<Verdict>, after: seq<Article>)
    requires forall u :: hash(u) != ""
    requires Ingested(hash, saves, before, batch, verdicts, after) && Failed !in verdicts
    ensures forall h ::
              Stored(after, h) <==> Stored(before, h) || exists j :: 0 <= j < |batch| && hash(batch[j].url) == h
  {
    StoredIsSeen(hash, saves, before, batch, verdicts);
    forall j | 0 <= j < |batch| ensures Stored(after, hash(batch[j].url)) {
      assert verdicts[j] in verdicts;
      UnlessFailedItIsStored(hash, saves, before, batch, verdicts, after, j);
    }
  }

  /**
   * Ingesting again, whatever the order and the answers to the saves: a batch whose URLs all came in a
   * fully saved one is deduplicated as a whole, and the table stays as it was.
   */
  lemma RepeatSavesNothing(hash: string -> Hash, saves: nat -> bool, before: seq<Article>,
                           batch: seq<RawArticle>, verdicts: seq<Verdict>, after: seq<Article>,
                           again: seq<RawArticle>, answers: nat -> bool, second: seq<Verdict>, end: seq<Article>)
    requires forall u :: hash(u) != ""
    requires Ingested(hash, saves, before, batch, verdicts, after) && Failed !in verdicts
    requires forall i :: 0 <= i < |again| ==> exists j :: 0 <= j < |batch| && batch[j].url == again[i].url
    requires Ingested(hash, answers, after, again, second, end)
    ensures end == after && Count(second, Duplicate) == |again| && Count(second, Saved) == 0
  {
    FullySavedBatch(hash, saves, before, batch, verdicts, after);
    forall i | 0 <= i < |second| ensures second[i] == Duplicate {
      var j :| 0 <= j < |batch| && batch[j].url == again[i].url;
      assert Stored(after, hash(batch[j].url));
      assert second[i] == Judge(hash, KnownIn(after), answers, again, second[..i]);
    }
    AllDuplicates(second);
    assert SavedRows(hash, again, second) == [];
  }

  lemma {:induction false} AllDuplicates(verdicts: seq<Verdict>)
    requires forall i :: 0 <= i < |verdicts| ==> verdicts[i] == Duplicate
    ensures Count(verdicts, Duplicate) == |verdicts| && Count(verdicts, Saved) == 0
  {
    if verdicts != [] {
      AllDuplicates(verdicts[..|verdicts| - 1]);
    }
  }
}
