/**
 * Knowledge items and their vectors: a request writes the item table, then brings the vector
 * index after it, and is committed or rolled back as a whole at its end
 * (backend/services/knowledge_service.py, backend/routers/deps.py); dense retrieval reads the
 * index and the table together (backend/services/rag/retriever.py, _fetch_and_rank).
 */
module KnowledgeIndex {
  import opened Wrappers
  import F = Fusion
  import opened Slicing

  type Id = string
  type UserId = nat
  type Vector = seq<real>
  type Embedder = string -> Vector

  datatype Item = Item(title: string, content: string, kind: string, tags: seq<string>, owner: Option<UserId>)

  /** A field of an update request: left out, set to null, or set to a value. */
  datatype Field<T> = Unset | Null | Value(value: T)

  datatype Patch = Patch(title: Field<string>, content: Field<string>, kind: Field<string>, tags: Field<seq<string>>)

  function Or<T>(field: Field<T>, otherwise: T): T {
    if field.Value? then field.value else otherwise
  }

  /** No column takes null, so a request that sets one to null fails as a whole. */
  predicate SetsNull(p: Patch) {
    p.title.Null? || p.content.Null? || p.kind.Null? || p.tags.Null?
  }

  function Patched(item: Item, p: Patch): Item {
    Item(Or(p.title, item.title), Or(p.content, item.content), Or(p.kind, item.kind), Or(p.tags, item.tags), item.owner)
  }

  datatype Payload = Payload(title: string, kind: string, tags: seq<string>)

  function PayloadOf(item: Item): Payload {
    Payload(item.title, item.kind, item.tags)
  }

  datatype Point = Point(vector: Vector, payload: Payload)

  /** `pending` are the ids whose latest vector call left the index behind or ahead of the table. It is not stored
      anywhere; it is what the table and the index have to be judged by. */
  datatype State = State(table: map<Id, Item>, index: map<Id, Point>, pending: set<Id>)

  const EMPTY := State(map[], map[], {})

  /** What becomes of the vector calls of a request. */
  datatype Fate =
    | Applied         // they take effect and return
    | Skipped         // no client is configured, none is made
    | Failed          // one raises and the index is left alone
    | LandedAndFailed // the index takes the call, which then raises all the same

  predicate Raises(fate: Fate) {
    fate == Failed || fate == LandedAndFailed
  }

  datatype Op =
    | Create(id: Id, item: Item, fate: Fate)
    | Update(id: Id, patch: Patch, user: Option<UserId>, fate: Fate)
    | Delete(id: Id, user: Option<UserId>, fate: Fate)

  function Owned(s: State, id: Id, user: Option<UserId>): bool {
    id in s.table && s.table[id].owner == user
  }

  /** An item is written and its vector brought after it. When a call raises, so does the handler that is to swallow
      the exception, as it names a variable it does not have: the request fails and the table is rolled back. */
  function Written(s: State, id: Id, item: Item, embed: Embedder, fate: Fate): State {
    var point := Point(embed(item.content), PayloadOf(item));
    match fate
    case Applied => State(s.table[id := item], s.index[id := point], s.pending - {id})
    case Skipped => State(s.table[id := item], s.index, s.pending + {id})
    case Failed => s
    case LandedAndFailed => State(s.table, s.index[id := point], s.pending + {id})
  }

  /** An item is deleted; here a failing call is swallowed. */
  function Dropped(s: State, id: Id, fate: Fate): State {
    if fate == Applied || fate == LandedAndFailed then State(s.table - {id}, s.index - {id}, s.pending - {id})
    else State(s.table - {id}, s.index, s.pending + {id})
  }

  function Apply(s: State, op: Op, embed: Embedder): State {
    match op
    case Create(id, item, fate) => Written(s, id, item, embed, fate)
    case Update(id, patch, user, fate) =>
      if !Owned(s, id, user) || SetsNull(patch) then s
      else if patch.content.Value? then Written(s, id, Patched(s.table[id], patch), embed, fate)
      else s.(table := s.table[id := Patched(s.table[id], patch)])
    case Delete(id, user, fate) =>
      if !Owned(s, id, user) then s else Dropped(s, id, fate)
  }

  datatype Outcome = Done | NotFound | Rejected | Raised

  /** What the request answers. */
  function Answer(s: State, op: Op): Outcome {
    match op
    case Create(_, _, fate) => if Raises(fate) then Raised else Done
    case Update(id, patch, user, fate) =>
      if !Owned(s, id, user) then NotFound
      else if SetsNull(patch) then Rejected
      else if patch.content.Value? && Raises(fate) then Raised
      else Done
    case Delete(id, user, _) => if Owned(s, id, user) then Done else NotFound
  }

  function Run(s: State, ops: seq<Op>, embed: Embedder): State
    decreases |ops|
  {
    if ops == [] then s else Run(Apply(s, ops[0], embed), ops[1..], embed)
  }

  class KnowledgeItemService {
    var table: map<Id, Item>
    var index: map<Id, Point>
    ghost var pending: set<Id>
    const embed: Embedder

    constructor (embed: Embedder)
      ensures Now() == EMPTY && this.embed == embed
    {
      table, index, pending, this.embed := map[], map[], {}, embed;
    }

    ghost function Now(): State
      reads this
    {
      State(table, index, pending)
    }

    /** The handler of a failing call reads `item_id`, which is not bound there, and so raises in its turn. */
    method SyncEmbedding(id: Id, item: Item, fate: Fate) returns (raised: bool)
      modifies this`index
      ensures raised <==> Raises(fate)
      ensures index == if fate == Applied || fate == LandedAndFailed
                       then old(index)[id := Point(embed(item.content), Payload(item.title, item.kind, item.tags))]
                       else old(index)
    {
      if fate == Applied || fate == LandedAndFailed {
        index := index[id := Point(embed(item.content), Payload(item.title, item.kind, item.tags))];
      }
      raised := fate == Failed || fate == LandedAndFailed;
    }

    /** Here the handler does swallow. */
    method DeleteVector(id: Id, fate: Fate)
      modifies this`index
      ensures index == if fate == Applied || fate == LandedAndFailed then old(index) - {id} else old(index)
    {
      if fate == Applied || fate == LandedAndFailed {
        index := index - {id};
      }
    }

    /** The end of a request: what was flushed is kept, unless an exception came through. */
    method EndRequest(id: Id, before: map<Id, Item>, fate: Fate, raised: bool) returns (outcome: Outcome)
      modifies this`table, this`pending
      ensures outcome == if raised then Raised else Done
      ensures table == if raised then before else old(table)
      ensures pending == match fate
                         case Applied => old(pending) - {id}
                         case Skipped => old(pending) + {id}
                         case Failed => if raised then old(pending) else old(pending) + {id}
                         case LandedAndFailed => if raised then old(pending) + {id} else old(pending) - {id}
    {
      outcome := Done;
      if raised {
        table := before;
        outcome := Raised;
      }
      pending := match fate
                 case Applied => pending - {id}
                 case Skipped => pending + {id}
                 case Failed => if raised then pending else pending + {id}
                 case LandedAndFailed => if raised then pending + {id} else pending - {id};
    }

    method CreateKnowledgeItem(id: Id, item: Item, fate: Fate) returns (outcome: Outcome)
      requires id !in table
      modifies this
      ensures outcome == Answer(old(Now()), Create(id, item, fate))
      ensures Now() == Apply(old(Now()), Create(id, item, fate), embed)
      ensures outcome == Raised <==> fate == Failed || fate == LandedAndFailed
      ensures table == if outcome == Done then old(table)[id := item] else old(table)
    {
      var before := table;
      table := table[id := item];
      var raised := SyncEmbedding(id, item, fate);
      outcome := EndRequest(id, before, fate, raised);
    }

    /** The index is touched only when the request sets `content`. */
    method UpdateKnowledgeItem(id: Id, patch: Patch, user: Option<UserId>, fate: Fate) returns (outcome: Outcome)
      modifies this
      ensures outcome == Answer(old(Now()), Update(id, patch, user, fate))
      ensures Now() == Apply(old(Now()), Update(id, patch, user, fate), embed)
      ensures outcome == NotFound <==> id !in old(table) || old(table)[id].owner != user
      ensures outcome == Rejected <==>
                && id in old(table) && old(table)[id].owner == user
                && (patch.title.Null? || patch.content.Null? || patch.kind.Null? || patch.tags.Null?)
      ensures outcome != Done ==> table == old(table)
      ensures outcome == Done ==>
                && id in old(table) && id in table && table == old(table)[id := table[id]]
                && var was, item := old(table)[id], table[id];
                   && item.title == (if patch.title.Value? then patch.title.value else was.title)
                   && item.content == (if patch.content.Value? then patch.content.value else was.content)
                   && item.kind == (if patch.kind.Value? then patch.kind.value else was.kind)
                   && item.tags == (if patch.tags.Value? then patch.tags.value else was.tags)
                   && item.owner == was.owner
      ensures outcome == Done && patch.content.Value? && fate == Applied ==>
                id in index && index[id].vector == embed(patch.content.value)
    {
      if id !in table || table[id].owner != user {
        return NotFound;
      }
      if SetsNull(patch) {
        return Rejected;
      }
      var before := table;
      table := table[id := Patched(table[id], patch)];
      outcome := Done;
      if patch.content.Value? {
        var raised := SyncEmbedding(id, table[id], fate);
        outcome := EndRequest(id, before, fate, raised);
      }
    }

    method DeleteKnowledgeItem(id: Id, user: Option<UserId>, fate: Fate) returns (outcome: Outcome)
      modifies this
      ensures outcome == Answer(old(Now()), Delete(id, user, fate))
      ensures Now() == Apply(old(Now()), Delete(id, user, fate), embed)
      ensures outcome == Done <==> id in old(table) && old(table)[id].owner == user
      ensures table == if outcome == Done then old(table) - {id} else old(table)
    {
      if id !in table || table[id].owner != user {
        return NotFound;
      }
      var before := table;
      table := table - {id};
      DeleteVector(id, fate);
      outcome := EndRequest(id, before, fate, false);
    }
  }

  // ---- what an edit does -----------------------------------------------------

  /** Of an update that is done, each field is the request's where it sets one and the old one elsewhere; the owner and
      all other items stay; and an applied new content is what the index holds. */
  lemma EditIsAsRequested(s: State, id: Id, patch: Patch, user: Option<UserId>, fate: Fate, embed: Embedder)
    requires Answer(s, Update(id, patch, user, fate)) == Done
    ensures var after := Apply(s, Update(id, patch, user, fate), embed);
            && id in s.table && after.table.Keys == s.table.Keys
            && (forall other :: other in s.table && other != id ==> after.table[other] == s.table[other])
            && (var was, item := s.table[id], after.table[id];
                && (match patch.title case Value(t) => item.title == t case _ => item.title == was.title)
                && (match patch.content case Value(c) => item.content == c case _ => item.content == was.content)
                && (match patch.kind case Value(k) => item.kind == k case _ => item.kind == was.kind)
                && (match patch.tags case Value(t) => item.tags == t case _ => item.tags == was.tags)
                && item.owner == was.owner)
            && (patch.content.Value? && fate == Applied ==>
                  id in after.index && after.index[id].vector == embed(patch.content.value))
            && (!patch.content.Value? ==> after.index == s.index)
  {
  }

  // ---- the swallowing of failed calls ----------------------------------------

  /** The operation with vector calls that take effect. */
  function Unfailing(op: Op): Op {
    op.(fate := Applied)
  }

  /** The calls on the vector services are to fail without failing the request. They do so exactly when the request
      deletes, or does not get to write an item's content, or no configured call raises. */
  lemma FailuresAreSwallowedExactly(s: State, op: Op)
    ensures Answer(s, op) == Answer(s, Unfailing(op)) <==>
              || op.Delete? || !Raises(op.fate)
              || (op.Update? && (!Owned(s, op.id, op.user) || SetsNull(op.patch) || !op.patch.content.Value?))
  {
  }

  /** A failed call of a create or a content update leaves the item table as it was. */
  lemma RaisedRequestKeepsTheTable(s: State, op: Op, embed: Embedder)
    requires Answer(s, op) == Raised
    ensures Apply(s, op, embed).table == s.table
    ensures op.fate == Failed ==> Apply(s, op, embed) == s
  {
  }

  // ---- index and table -------------------------------------------------------

  /** Away from the pending ids the index has exactly the stored ids, each with the
      embedding of its current content. */
  ghost predicate Agrees(s: State, embed: Embedder) {
    forall id :: id !in s.pending ==>
      && (id in s.table <==> id in s.index)
      && (id in s.table ==> s.index[id].vector == embed(s.table[id].content))
  }

  lemma OpKeepsAgreement(s: State, op: Op, embed: Embedder)
    requires Agrees(s, embed)
    ensures Agrees(Apply(s, op, embed), embed)
  {
  }

  lemma {:induction false} IndexFollowsTable(s: State, ops: seq<Op>, embed: Embedder)
    requires Agrees(s, embed)
    ensures Agrees(Run(s, ops, embed), embed)
    decreases |ops|
  {
    if ops != [] {
      OpKeepsAgreement(s, ops[0], embed);
      IndexFollowsTable(Apply(s, ops[0], embed), ops[1..], embed);
    }
  }

  /** A request that leaves index and table together: nothing is skipped, a delete's call takes effect, and no upsert
      lands that then fails. Calls may fail outright. */
  predicate KeepsTogether(op: Op) {
    match op
    case Create(_, _, fate) => fate == Applied || fate == Failed
    case Update(_, patch, _, fate) => !patch.content.Value? || fate == Applied || fate == Failed
    case Delete(_, _, fate) => fate == Applied || fate == LandedAndFailed
  }

  lemma {:induction false} NothingPendingWhenTogether(s: State, ops: seq<Op>, embed: Embedder)
    requires s.pending == {} && forall op :: op in ops ==> KeepsTogether(op)
    ensures Run(s, ops, embed).pending == {}
    decreases |ops|
  {
    if ops != [] {
      assert ops[0] in ops;
      NothingPendingWhenTogether(Apply(s, ops[0], embed), ops[1..], embed);
    }
  }

  /** Then the vectors are the embeddings of the table, whatever embedding and upsert calls failed. */
  lemma IndexIsEmbeddedTable(ops: seq<Op>, embed: Embedder)
    requires forall op :: op in ops ==> KeepsTogether(op)
    ensures var s := Run(EMPTY, ops, embed);
            && s.index.Keys == s.table.Keys
            && forall id :: id in s.table ==> s.index[id].vector == embed(s.table[id].content)
  {
    IndexFollowsTable(EMPTY, ops, embed);
    NothingPendingWhenTogether(EMPTY, ops, embed);
    assert forall id :: id !in Run(EMPTY, ops, embed).pending;
  }

  // ---- the payload beside the vector -------------------------------------------

  /** The payload stored with a vector shows the item's current title, kind and tags. */
  predicate PayloadIsCurrent(s: State, id: Id) {
    id in s.table && id in s.index && s.index[id].payload == PayloadOf(s.table[id])
  }

  /** The payload is refreshed with the vector only. An update of an item with a current payload leaves it current
      exactly when it brings the vector up to date too, or fails outright and changes nothing, or changes neither
      title, kind nor tags. */
  lemma PayloadStaysCurrentExactly(s: State, id: Id, patch: Patch, user: Option<UserId>, fate: Fate, embed: Embedder)
    requires PayloadIsCurrent(s, id) && Owned(s, id, user) && !SetsNull(patch)
    ensures PayloadIsCurrent(Apply(s, Update(id, patch, user, fate), embed), id) <==>
              || (patch.content.Value? && (fate == Applied || fate == Failed))
              || PayloadOf(Patched(s.table[id], patch)) == PayloadOf(s.table[id])
  {
  }

  /** A new title alone leaves the old one in the index. */
  lemma NewTitleIsNotIndexed(id: Id, item: Item, title: string, embed: Embedder)
    requires title != item.title
    ensures var created := Run(EMPTY, [Create(id, item, Applied)], embed);
            var patch := Patch(Value(title), Unset, Unset, Unset);
            var renamed := Apply(created, Update(id, patch, item.owner, Applied), embed);
            && id in renamed.table && renamed.table[id].title == title
            && id in renamed.index && renamed.index[id].payload.title == item.title
            && PayloadIsCurrent(created, id) && !PayloadIsCurrent(renamed, id)
  {
    assert [Create(id, item, Applied)][1..] == [];
  }

  // ---- dense retrieval -------------------------------------------------------

  datatype VectorHit = VectorHit(id: Id, score: Option<real>)

  function ToHit(hit: VectorHit, item: Item): F.Hit {
    F.Hit(hit.id, item.title, item.content, item.kind, item.tags, hit.score, hit.score, None)
  }

  /** The hits that are still stored, with their current fields. */
  function Known(hits: seq<VectorHit>, table: map<Id, Item>): seq<F.Hit> {
    if hits == [] then []
    else
      var last := hits[|hits| - 1];
      Known(hits[..|hits| - 1], table) + if last.id in table then [ToHit(last, table[last.id])] else []
  }

  /** `_fetch_and_rank`, with Python's `[:limit]`. */
  method FetchAndRank(hits: seq<VectorHit>, table: map<Id, Item>, limit: int) returns (ranked: seq<F.Hit>)
    ensures var known := Known(hits, table); ranked == known[..SliceLength(|known|, limit)]
  {
    ranked := [];
    for i := 0 to |hits|
      invariant ranked == Known(hits[..i], table)
    {
      assert hits[..i + 1][..i] == hits[..i];
      if hits[i].id in table {
        ranked := ranked + [ToHit(hits[i], table[hits[i].id])];
      }
    }
    assert hits[..|hits|] == hits;
    ranked := ranked[..SliceLength(|ranked|, limit)];
  }

  /** `from` lists, in rising order, the hits that are known. */
  ghost predicate PicksKnown(hits: seq<VectorHit>, table: map<Id, Item>, from: seq<nat>) {
    && (forall i, j :: 0 <= i < j < |from| ==> from[i] < from[j])
    && (forall i :: 0 <= i < |from| ==> from[i] < |hits|)
    && (forall k: nat :: k < |hits| ==> (hits[k].id in table <==> k in from))
  }

  ghost predicate Shows(known: seq<F.Hit>, hits: seq<VectorHit>, table: map<Id, Item>, from: seq<nat>) {
    && |known| == |from|
    && forall i :: 0 <= i < |from| ==>
         from[i] < |hits| && hits[from[i]].id in table && known[i] == ToHit(hits[from[i]], table[hits[from[i]].id])
  }

  lemma PicksOneMore(hits: seq<VectorHit>, table: map<Id, Item>, before: seq<nat>)
    requires hits != [] && PicksKnown(hits[..|hits| - 1], table, before)
    ensures PicksKnown(hits, table, if hits[|hits| - 1].id in table then before + [|hits| - 1] else before)
  {
  }

  lemma ShowsOneMore(known: seq<F.Hit>, hits: seq<VectorHit>, table: map<Id, Item>, before: seq<nat>)
    requires hits != [] && Shows(known, hits[..|hits| - 1], table, before)
    ensures var last := hits[|hits| - 1];
            Shows(known + if last.id in table then [ToHit(last, table[last.id])] else [], hits, table,
                  if last.id in table then before + [|hits| - 1] else before)
  {
  }

  lemma KnownUnfolds(hits: seq<VectorHit>, table: map<Id, Item>)
    requires hits != []
    ensures var last := hits[|hits| - 1];
            Known(hits, table)
            == Known(hits[..|hits| - 1], table) + if last.id in table then [ToHit(last, table[last.id])] else []
  {
  }

  lemma NothingKnown(table: map<Id, Item>)
    ensures PicksKnown([], table, []) && Shows(Known([], table), [], table, [])
  {
  }

  /** Known hits are exactly the stored ones, in the order of the search, with the fields the
      table has now. */
  lemma {:induction false} KnownIsSubsequence(hits: seq<VectorHit>, table: map<Id, Item>) returns (from: seq<nat>)
    ensures PicksKnown(hits, table, from) && Shows(Known(hits, table), hits, table, from)
  {
    if hits == [] {
      from := [];
      NothingKnown(table);
    } else {
      var n := |hits| - 1;
      var before := KnownIsSubsequence(hits[..n], table);
      from := if hits[n].id in table then before + [n] else before;
      assert PicksKnown(hits, table, from) by {
        PicksOneMore(hits, table, before);
      }
      assert Shows(Known(hits, table), hits, table, from) by {
        KnownUnfolds(hits, table);
        ShowsOneMore(Known(hits[..n], table), hits, table, before);
      }
    }
  }

  lemma {:induction false} AllKnown(hits: seq<VectorHit>, table: map<Id, Item>)
    requires forall i :: 0 <= i < |hits| ==> hits[i].id in table
    ensures |Known(hits, table)| == |hits| && forall i :: 0 <= i < |hits| ==> Known(hits, table)[i].id == hits[i].id
  {
    if hits != [] {
      AllKnown(hits[..|hits| - 1], table);
    }
  }

  /** The hit shows the stored item as it is now, with a score of the search. */
  ghost predicate ShowsItem(r: F.Hit, hits: seq<VectorHit>, table: map<Id, Item>) {
    && r.id in table
    && r.title == table[r.id].title && r.content == table[r.id].content
    && r.kind == table[r.id].kind && r.tags == table[r.id].tags
    && r.keywordScore == None && r.denseScore == r.score
    && exists k :: 0 <= k < |hits| && hits[k].id == r.id && hits[k].score == r.score
  }

  /** Hits that are returned are stored, and show what the table has now. */
  lemma {:induction false} KnownAreStored(hits: seq<VectorHit>, table: map<Id, Item>)
    ensures forall r :: r in Known(hits, table) ==> ShowsItem(r, hits, table)
  {
    if hits != [] {
      var n := |hits| - 1;
      KnownAreStored(hits[..n], table);
      forall r | r in Known(hits, table) ensures ShowsItem(r, hits, table) {
        if r in Known(hits[..n], table) {
          assert ShowsItem(r, hits[..n], table);
          var k :| 0 <= k < n && hits[..n][k].id == r.id && hits[..n][k].score == r.score;
          assert hits[k] == hits[..n][k];
        } else {
          assert r == ToHit(hits[n], table[hits[n].id]);
        }
      }
    }
  }

  /** A search over an index that follows the table finds stored items only. */
  lemma AllHitsAreKnown(ops: seq<Op>, embed: Embedder, hits: seq<VectorHit>)
    requires forall op :: op in ops ==> KeepsTogether(op)
    requires forall i :: 0 <= i < |hits| ==> hits[i].id in Run(EMPTY, ops, embed).index
    ensures var known := Known(hits, Run(EMPTY, ops, embed).table);
            |known| == |hits| && forall i :: 0 <= i < |hits| ==> known[i].id == hits[i].id
  {
    IndexIsEmbeddedTable(ops, embed);
    AllKnown(hits, Run(EMPTY, ops, embed).table);
  }

  /** `_retrieve_dense`; `hits` is what the search gives, and nothing when embedding the query or searching fails.
      Whatever became of vector calls before, only stored items are returned; and if every request kept index and table
      together, every hit of a search over the index is, up to the limit. */
  method RetrieveDense(ghost ops: seq<Op>, ghost embed: Embedder, table: map<Id, Item>, hits: Option<seq<VectorHit>>,
                       limit: int)
    returns (ranked: seq<F.Hit>)
    requires table == Run(EMPTY, ops, embed).table
    requires hits.Some? ==> forall i :: 0 <= i < |hits.value| ==> hits.value[i].id in Run(EMPTY, ops, embed).index
    ensures hits.Some? ==> forall r :: r in ranked ==> ShowsItem(r, hits.value, table)
    ensures hits.None? ==> ranked == []
    ensures hits.Some? && (forall op :: op in ops ==> KeepsTogether(op)) ==>
              && |ranked| == SliceLength(|hits.value|, limit)
              && forall i :: 0 <= i < |ranked| ==> ranked[i].id == hits.value[i].id
  {
    if hits.None? {
      return [];
    }
    ranked := FetchAndRank(hits.value, table, limit);
    KnownAreStored(hits.value, table);
    if forall op :: op in ops ==> KeepsTogether(op) {
      AllHitsAreKnown(ops, embed, hits.value);
    }
  }
}
