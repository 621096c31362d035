/** The pulse log of a stand kept in a Mongo collection: posting Xembly
    fragments to a pulse, which replays the whole accumulated script and
    stores it with the tags of the resulting document, and listing the
    stand's pulses, most recently updated first, through a cursor. */
module MongoStand {
  import opened Wrappers
  import opened Xembly
  import opened TextOrder

  /** What a record is found and upserted by: the pulse and the stand. */
  datatype Key = Key(pulse: string, stand: string)

  /** One document of the `stands` collection, with its attributes `pulse`,
      `stand`, `updated`, `xembly` and `tags`. */
  datatype Record = Record(pulse: string, stand: string, updated: string, xembly: string, tags: seq<string>)

  function KeyOf(r: Record): Key
  {
    Key(r.pulse, r.stand)
  }

  /** The collection, as the records it holds by their key. */
  type Collection = map<Key, Record>

  /** What `getLastError()` reports about a write: success, or the store's
      error message. It is decided by the store, outside this model. */
  datatype WriteVerdict = Acknowledged | Rejected(message: string)

  /** The `IllegalArgumentException` that `Validate.isTrue` raises when the
      store rejects the upsert. */
  datatype PostError = WriteFailed(message: string)

  /** `UnsupportedOperationException`. */
  datatype Unsupported = UnsupportedOperation

  // ----- The write path, as functions of the collection before the call -----

  /** The script stored for a key, or "" when the key has no record. */
  function StoredScript(c: Collection, k: Key): string
  {
    if k in c then c[k].xembly else ""
  }

  /** Replaying a script: applying all of it to an empty document. */
  function Replay(apply: Applier, script: string): Result<Doc, ApplyError>
  {
    apply(script, EmptyDoc)
  }

  /** The warning logged when replay fails; it quotes the fragment that was
      posted, not the whole script. */
  function Warning(fragment: string, e: ApplyError): string
  {
    match e
    case SyntaxError(m) => "invalid syntax in `" + fragment + "`: " + m
    case ImpossibleModification(m) => "impossibe to modify `" + fragment + "`: " + m
  }

  /** The message of the error raised when the store rejects the upsert. */
  function FailureMessage(pulse: string, storeMessage: string): string
  {
    "failed to create new pulse `" + pulse + "`: " + storeMessage
  }

  /** `update(query, record, upsert = true, multi = false)` where the query
      is the record's own key: create or fully replace that one record. */
  function Upsert(c: Collection, r: Record): Collection
  {
    c[KeyOf(r) := r]
  }

  /** Everything one `post` does: the new collection, the warnings it logs
      and what it returns or raises. */
  datatype PostEffect = PostEffect(collection: Collection, warnings: seq<string>, result: Result<Unit, PostError>)

  /** `post(pulse, xembly)` of the stand called `stand` at time `now`. */
  function Posted(apply: Applier, c: Collection, stand: string, pulse: string,
                  fragment: string, now: string, verdict: WriteVerdict): PostEffect
  {
    var script := StoredScript(c, Key(pulse, stand)) + fragment;
    match Replay(apply, script)
    case Failure(e) => PostEffect(c, [Warning(fragment, e)], Success(Unit))
    case Success(dom) =>
      match verdict
      case Acknowledged =>
        PostEffect(Upsert(c, Record(pulse, stand, now, script, Tags(dom))), [], Success(Unit))
      case Rejected(m) =>
        PostEffect(c, [], Failure(WriteFailed(FailureMessage(pulse, m))))
  }

  /** A record can be rebuilt from its own script: replaying the script on
      an empty document succeeds and gives back the stored tags. */
  predicate Reproducible(apply: Applier, r: Record)
  {
    Replay(apply, r.xembly).Success? && r.tags == Tags(Replay(apply, r.xembly).value)
  }

  /** Every record sits under the key its own `pulse` and `stand` make. */
  predicate Keyed(c: Collection)
  {
    forall k :: k in c ==> KeyOf(c[k]) == k
  }

  /** An upsert writes exactly one record: the new one, under its own key;
      every other record stays, and a keyed collection stays keyed. */
  lemma UpsertWritesOneRecord(c: Collection, r: Record)
    ensures var d := Upsert(c, r);
      && KeyOf(r) in d && d[KeyOf(r)] == r
      && d.Keys == c.Keys + {KeyOf(r)}
      && (forall k :: k in c && k != KeyOf(r) ==> d[k] == c[k])
      && (Keyed(c) ==> Keyed(d))
  {
  }

  /** In a keyed collection, looking a key up is what `find({pulse, stand})`
      does: the records whose fields match are exactly the one under that
      key, if any. */
  lemma LookupIsFieldFilter(c: Collection, k: Key)
    requires Keyed(c)
    ensures forall r :: r in c.Values && r.pulse == k.pulse && r.stand == k.stand ==> k in c && c[k] == r
    ensures k in c ==> c[k] in c.Values && c[k].pulse == k.pulse && c[k].stand == k.stand
  {
    forall r | r in c.Values && r.pulse == k.pulse && r.stand == k.stand
      ensures k in c && c[k] == r
    {
      var k' :| k' in c && c[k'] == r;
      assert KeyOf(c[k']) == k';
    }
  }

  /** Every record sits under its own key and is reproducible. */
  predicate Consistent(apply: Applier, c: Collection)
  {
    forall k :: k in c ==> KeyOf(c[k]) == k && Reproducible(apply, c[k])
  }

  // ----- Properties of one post -----

  /** A fragment whose replay fails leaves the collection exactly as it was,
      raises nothing, and logs one warning naming the fragment. */
  lemma RejectedFragmentChangesNothing(apply: Applier, c: Collection, stand: string, pulse: string,
                                       fragment: string, now: string, verdict: WriteVerdict)
    requires Replay(apply, StoredScript(c, Key(pulse, stand)) + fragment).Failure?
    ensures var e := Posted(apply, c, stand, pulse, fragment, now, verdict);
      && e.collection == c
      && e.result == Success(Unit)
      && e.warnings == [Warning(fragment, Replay(apply, StoredScript(c, Key(pulse, stand)) + fragment).error)]
  {
  }

  /** A fragment whose replay succeeds, when the store acknowledges the
      write, creates or replaces exactly the record of (pulse, stand): it
      holds the stored script followed by the fragment, the new time and the
      tags of the replayed document; every other record stays as it was. */
  lemma AcceptedFragmentUpserts(apply: Applier, c: Collection, stand: string, pulse: string,
                                fragment: string, now: string)
    requires Replay(apply, StoredScript(c, Key(pulse, stand)) + fragment).Success?
    ensures var e := Posted(apply, c, stand, pulse, fragment, now, Acknowledged);
      var k := Key(pulse, stand);
      var script := StoredScript(c, k) + fragment;
      && e.result == Success(Unit)
      && e.warnings == []
      && e.collection.Keys == c.Keys + {k}
      && e.collection[k] == Record(pulse, stand, now, script, Tags(Replay(apply, script).value))
      && (forall k' :: k' in c && k' != k ==> e.collection[k'] == c[k'])
  {
  }

  /** When the store rejects the write the caller gets an error carrying the
      pulse, quoted after the fixed 28-character prefix, and ending with the
      store's message; the collection is left alone. */
  lemma RejectedWriteRaises(apply: Applier, c: Collection, stand: string, pulse: string,
                            fragment: string, now: string, storeMessage: string)
    requires Replay(apply, StoredScript(c, Key(pulse, stand)) + fragment).Success?
    ensures var e := Posted(apply, c, stand, pulse, fragment, now, Rejected(storeMessage));
      && e.collection == c
      && e.warnings == []
      && e.result.Failure?
      && var m := e.result.error.message;
         && |m| >= 28 + |pulse| + |storeMessage|
         && m[28..28 + |pulse|] == pulse
         && m[|m| - |storeMessage|..] == storeMessage
  {
  }

  /** The stored record's tags depend on the stored script and the fragment
      alone: the tags held before are never merged in. */
  lemma TagsIgnoreStoredTags(apply: Applier, c: Collection, d: Collection, stand: string, pulse: string,
                             fragment: string, now: string, verdict: WriteVerdict)
    requires StoredScript(c, Key(pulse, stand)) == StoredScript(d, Key(pulse, stand))
    ensures var e := Posted(apply, c, stand, pulse, fragment, now, verdict);
      var f := Posted(apply, d, stand, pulse, fragment, now, verdict);
      && e.warnings == f.warnings && e.result == f.result
      && (Replay(apply, StoredScript(c, Key(pulse, stand)) + fragment).Success? && verdict.Acknowledged? ==>
            && Key(pulse, stand) in e.collection && Key(pulse, stand) in f.collection
            && e.collection[Key(pulse, stand)] == f.collection[Key(pulse, stand)])
  {
  }

  /** Posting never makes a consistent collection inconsistent: no record
      whose script cannot be replayed, or whose tags differ from its
      replay's, is ever stored. */
  lemma PostKeepsConsistent(apply: Applier, c: Collection, stand: string, pulse: string,
                            fragment: string, now: string, verdict: WriteVerdict)
    requires Consistent(apply, c)
    ensures Consistent(apply, Posted(apply, c, stand, pulse, fragment, now, verdict).collection)
  {
  }

  /** Posts to two different pulses of a stand do not interfere: either
      order gives the same collection. */
  lemma PostsToOtherPulsesCommute(apply: Applier, c: Collection, stand: string,
                                  p: string, f: string, t: string, v: WriteVerdict,
                                  q: string, g: string, u: string, w: WriteVerdict)
    requires p != q
    ensures var pq := Posted(apply, Posted(apply, c, stand, p, f, t, v).collection, stand, q, g, u, w).collection;
      var qp := Posted(apply, Posted(apply, c, stand, q, g, u, w).collection, stand, p, f, t, v).collection;
      pq == qp
  {
    var kp, kq := Key(p, stand), Key(q, stand);
    var cp := Posted(apply, c, stand, p, f, t, v).collection;
    var cq := Posted(apply, c, stand, q, g, u, w).collection;
    PostTouchesOnlyItsKey(apply, c, stand, p, f, t, v);
    PostTouchesOnlyItsKey(apply, c, stand, q, g, u, w);
    assert StoredScript(cp, kq) == StoredScript(c, kq);
    assert StoredScript(cq, kp) == StoredScript(c, kp);
    PostTouchesOnlyItsKey(apply, cp, stand, q, g, u, w);
    PostTouchesOnlyItsKey(apply, cq, stand, p, f, t, v);
  }

  /** `Posted`'s collection in closed form, with its two matches folded
      into one condition and the upsert written out as a map update. It is
      the definition restated for use in `PostsToOtherPulsesCommute`, not a
      property beyond it: a post either leaves the collection alone or
      writes the one record under its own key. */
  lemma PostTouchesOnlyItsKey(apply: Applier, c: Collection, stand: string, pulse: string,
                              fragment: string, now: string, verdict: WriteVerdict)
    ensures var k := Key(pulse, stand);
      var d := Posted(apply, c, stand, pulse, fragment, now, verdict).collection;
      var script := StoredScript(c, k) + fragment;
      d == if Replay(apply, script).Success? && verdict.Acknowledged?
        then c[k := Record(pulse, stand, now, script, Tags(Replay(apply, script).value))]
        else c
  {
  }

  /** The script a post leaves behind for its own key: the old one followed
      by the fragment when the post is stored, the old one otherwise. */
  lemma PostedScript(apply: Applier, c: Collection, stand: string, pulse: string,
                     fragment: string, now: string, verdict: WriteVerdict)
    ensures var k := Key(pulse, stand);
      var script := StoredScript(c, k) + fragment;
      StoredScript(Posted(apply, c, stand, pulse, fragment, now, verdict).collection, k)
        == if Replay(apply, script).Success? && verdict.Acknowledged? then script else StoredScript(c, k)
  {
  }

  // ----- A run of posts to one pulse -----

  /** One call `post(pulse, fragment)` with the clock and the store's
      verdict it meets. */
  datatype Request = Request(fragment: string, now: string, verdict: WriteVerdict)

  /** The collection after the requests, in order, with no other writer. */
  function PostAll(apply: Applier, c: Collection, stand: string, pulse: string, reqs: seq<Request>): Collection
    decreases |reqs|
  {
    if reqs == [] then c
    else
      var e := Posted(apply, c, stand, pulse, reqs[0].fragment, reqs[0].now, reqs[0].verdict);
      PostAll(apply, e.collection, stand, pulse, reqs[1..])
  }

  /** The fragments that survive, starting from stored script `script`: one
      is kept when the script so far followed by it replays and the store
      acknowledges the write; a dropped one leaves the script as it was. */
  function Kept(apply: Applier, script: string, reqs: seq<Request>): seq<string>
    decreases |reqs|
  {
    if reqs == [] then []
    else
      var next := script + reqs[0].fragment;
      if Replay(apply, next).Success? && reqs[0].verdict.Acknowledged? then
        [reqs[0].fragment] + Kept(apply, next, reqs[1..])
      else
        Kept(apply, script, reqs[1..])
  }

  function Concat(ss: seq<string>): string
    decreases |ss|
  {
    if ss == [] then "" else ss[0] + Concat(ss[1..])
  }

  function Fragments(reqs: seq<Request>): seq<string>
    decreases |reqs|
  {
    if reqs == [] then [] else [reqs[0].fragment] + Fragments(reqs[1..])
  }

  /** `xs` is `ys` with some elements left out, order kept. */
  predicate Subsequence(xs: seq<string>, ys: seq<string>)
    decreases |ys|
  {
    xs == [] || (ys != [] && ((xs[0] == ys[0] && Subsequence(xs[1..], ys[1..])) || Subsequence(xs, ys[1..])))
  }

  /** After a run of posts to one pulse the stored script is the script it
      started with followed by the kept fragments, in the order posted. */
  lemma {:induction false} StoredScriptIsKeptFragments(apply: Applier, c: Collection, stand: string,
                                                       pulse: string, reqs: seq<Request>)
    ensures var k := Key(pulse, stand);
      StoredScript(PostAll(apply, c, stand, pulse, reqs), k)
        == StoredScript(c, k) + Concat(Kept(apply, StoredScript(c, k), reqs))
    decreases |reqs|
  {
    var k := Key(pulse, stand);
    var s := StoredScript(c, k);
    if reqs != [] {
      var r := reqs[0];
      var e := Posted(apply, c, stand, pulse, r.fragment, r.now, r.verdict);
      StoredScriptIsKeptFragments(apply, e.collection, stand, pulse, reqs[1..]);
      PostedScript(apply, c, stand, pulse, r.fragment, r.now, r.verdict);
      if Replay(apply, s + r.fragment).Success? && r.verdict.Acknowledged? {
        var rest := Kept(apply, s + r.fragment, reqs[1..]);
        assert Concat([r.fragment] + rest) == r.fragment + Concat(rest) by {
          assert ([r.fragment] + rest)[1..] == rest;
        }
      }
    }
  }

  /** The kept fragments are some of the posted ones, in the order posted. */
  lemma {:induction false} KeptAreSubsequence(apply: Applier, script: string, reqs: seq<Request>)
    ensures Subsequence(Kept(apply, script, reqs), Fragments(reqs))
    decreases |reqs|
  {
    if reqs != [] {
      var next := script + reqs[0].fragment;
      if Replay(apply, next).Success? && reqs[0].verdict.Acknowledged? {
        KeptAreSubsequence(apply, next, reqs[1..]);
        assert ([reqs[0].fragment] + Kept(apply, next, reqs[1..]))[1..] == Kept(apply, next, reqs[1..]);
      } else {
        KeptAreSubsequence(apply, script, reqs[1..]);
        var kept := Kept(apply, script, reqs[1..]);
        assert Fragments(reqs)[1..] == Fragments(reqs[1..]);
        assert kept == [] || Subsequence(kept, Fragments(reqs)[1..]);
      }
    }
  }

  /** A run of posts to one pulse touches no other record. */
  lemma {:induction false} PostAllLeavesOtherRecords(apply: Applier, c: Collection, stand: string,
                                                     pulse: string, reqs: seq<Request>, other: Key)
    requires other != Key(pulse, stand)
    ensures var d := PostAll(apply, c, stand, pulse, reqs);
      (other in d <==> other in c) && (other in c ==> d[other] == c[other])
    decreases |reqs|
  {
    if reqs != [] {
      var e := Posted(apply, c, stand, pulse, reqs[0].fragment, reqs[0].now, reqs[0].verdict);
      PostAllLeavesOtherRecords(apply, e.collection, stand, pulse, reqs[1..], other);
    }
  }

  /** A run of posts keeps the collection consistent, so every stored script
      replays, from an empty document, to the tags stored beside it. */
  lemma {:induction false} PostAllKeepsConsistent(apply: Applier, c: Collection, stand: string,
                                                  pulse: string, reqs: seq<Request>)
    requires Consistent(apply, c)
    ensures Consistent(apply, PostAll(apply, c, stand, pulse, reqs))
    decreases |reqs|
  {
    if reqs != [] {
      var r := reqs[0];
      PostKeepsConsistent(apply, c, stand, pulse, r.fragment, r.now, r.verdict);
      var e := Posted(apply, c, stand, pulse, r.fragment, r.now, r.verdict);
      PostAllKeepsConsistent(apply, e.collection, stand, pulse, reqs[1..]);
    }
  }

  // ----- The read path: the stand's records, most recently updated first -----

  /** Sorted by `updated`, most recent first, as `sort({updated: -1})` does. */
  predicate NewestFirst(rows: seq<Record>)
  {
    forall i, j :: 0 <= i < j < |rows| ==> NotAfter(rows[j].updated, rows[i].updated)
  }

  /** `rows`, read from the records under `keys`, are exactly the records of
      `c` whose `stand` is `stand`, each once, most recent first. */
  ghost predicate Lists(rows: seq<Record>, keys: seq<Key>, c: Collection, stand: string)
  {
    && |rows| == |keys|
    && (forall i :: 0 <= i < |keys| ==> keys[i] in c && rows[i] == c[keys[i]])
    && (forall i, j :: 0 <= i < j < |keys| ==> keys[i] != keys[j])
    && (forall k :: k in keys <==> k in c && c[k].stand == stand)
    && NewestFirst(rows)
  }

  /** Where `r` goes among rows sorted newest first: before the first row
      strictly older than it. */
  function InsertionPoint(rows: seq<Record>, r: Record): (i: nat)
    ensures i <= |rows|
    ensures forall j :: 0 <= j < i ==> NotAfter(r.updated, rows[j].updated)
    ensures i < |rows| ==> !NotAfter(r.updated, rows[i].updated)
    decreases |rows|
  {
    if rows == [] || !NotAfter(r.updated, rows[0].updated) then 0
    else 1 + InsertionPoint(rows[1..], r)
  }

  /** Inserting at the insertion point keeps rows sorted newest first. */
  lemma InsertKeepsNewestFirst(rows: seq<Record>, r: Record)
    requires NewestFirst(rows)
    ensures var i := InsertionPoint(rows, r);
      NewestFirst(rows[..i] + [r] + rows[i..])
  {
    var i := InsertionPoint(rows, r);
    var out := rows[..i] + [r] + rows[i..];
    if i < |rows| {
      NotAfterTotal(r.updated, rows[i].updated);
    }
    forall a, b | 0 <= a < b < |out|
      ensures NotAfter(out[b].updated, out[a].updated)
    {
      if a < i && b == i {
      } else if a == i && b == i + 1 {
      } else if a == i && b > i + 1 {
        NotAfterTransitive(rows[b - 1].updated, rows[i].updated, r.updated);
      } else if a < i && b > i {
        assert NotAfter(rows[b - 1].updated, rows[a].updated);
      } else if b < i {
        assert NotAfter(rows[b].updated, rows[a].updated);
      } else {
        assert NotAfter(rows[b - 1].updated, rows[a - 1].updated);
      }
    }
  }

  /** Halfway through reading the collection: the records already read
      (all keys but `pending`) are listed as `Lists` asks. */
  ghost predicate ListedSoFar(rows: seq<Record>, keys: seq<Key>, c: Collection, stand: string, pending: set<Key>)
  {
    && pending <= c.Keys
    && |rows| == |keys|
    && (forall i :: 0 <= i < |keys| ==> keys[i] in c && rows[i] == c[keys[i]])
    && (forall i, j :: 0 <= i < j < |keys| ==> keys[i] != keys[j])
    && (forall k :: k in keys <==> k in c && k !in pending && c[k].stand == stand)
    && NewestFirst(rows)
  }

  /** Inserting `x` at index `i` of `s`: what lands where. */
  lemma SpliceIndices<T>(s: seq<T>, i: nat, x: T)
    requires i <= |s|
    ensures var t := s[..i] + [x] + s[i..];
      && |t| == |s| + 1 && t[i] == x
      && (forall j :: 0 <= j < i ==> t[j] == s[j])
      && (forall j :: i < j < |t| ==> t[j] == s[j - 1])
  {
  }

  /** A record of another stand is skipped. */
  lemma ListingSkips(rows: seq<Record>, keys: seq<Key>, c: Collection, stand: string, pending: set<Key>, k: Key)
    requires ListedSoFar(rows, keys, c, stand, pending) && k in pending && c[k].stand != stand
    ensures ListedSoFar(rows, keys, c, stand, pending - {k})
  {
  }

  /** A record of the stand goes in at its insertion point, its key beside it. */
  lemma ListingInserts(rows: seq<Record>, keys: seq<Key>, c: Collection, stand: string, pending: set<Key>, k: Key)
    requires ListedSoFar(rows, keys, c, stand, pending) && k in pending && c[k].stand == stand
    ensures var i := InsertionPoint(rows, c[k]);
      ListedSoFar(rows[..i] + [c[k]] + rows[i..], keys[..i] + [k] + keys[i..], c, stand, pending - {k})
  {
    var r := c[k];
    var i := InsertionPoint(rows, r);
    InsertKeepsNewestFirst(rows, r);
    var rows', keys' := rows[..i] + [r] + rows[i..], keys[..i] + [k] + keys[i..];
    SpliceIndices(rows, i, r);
    SpliceIndices(keys, i, k);
    assert k !in keys;
    assert forall j :: 0 <= j < |keys'| ==> keys'[j] in c && rows'[j] == c[keys'[j]] by {
      forall j | 0 <= j < |keys'|
        ensures keys'[j] in c && rows'[j] == c[keys'[j]]
      {
        if j < i {
        } else if j > i {
          assert keys'[j] == keys[j - 1];
        }
      }
    }
    assert forall a, b :: 0 <= a < b < |keys'| ==> keys'[a] != keys'[b] by {
      forall a, b | 0 <= a < b < |keys'|
        ensures keys'[a] != keys'[b]
      {
        if b < i {
        } else if a > i {
          assert keys'[a] == keys[a - 1] && keys'[b] == keys[b - 1];
        } else if a == i {
          assert keys'[b] == keys[b - 1];
        } else if b == i {
        } else {
          assert keys'[a] == keys[a] && keys'[b] == keys[b - 1];
        }
      }
    }
    assert forall q :: q in keys' <==> q in keys || q == k by {
      assert keys' == keys[..i] + [k] + keys[i..];
      assert keys == keys[..i] + keys[i..];
    }
  }

  /** Why a read from the cursor gives no record. */
  datatype CursorError = NoMoreRecords | CursorClosed

  /** The `DBCursor` of one listing: the records it will return, in order,
      how many it has returned, and whether it has been closed (by the timer
      that closes it ten seconds after it was opened). */
  class Cursor {
    const rows: seq<Record>
    /** The keys the rows were read from. */
    ghost const keys: seq<Key>
    var pos: nat
    var closed: bool

    ghost predicate Valid()
      reads this
    {
      pos <= |rows|
    }

    constructor (rows: seq<Record>, ghost keys: seq<Key>)
      ensures Valid()
      ensures this.rows == rows && this.keys == keys && pos == 0 && !closed
    {
      this.rows := rows;
      this.keys := keys;
      pos := 0;
      closed := false;
    }

    /** A closed cursor looks exhausted: it reports no more records. */
    method HasNext() returns (more: bool)
      ensures more <==> !closed && pos < |rows|
    {
      more := !closed && pos < |rows|;
    }

    /** The next record, moving past it; an error, and no move, when there
        is none or the cursor is closed. */
    method Next() returns (r: Result<Record, CursorError>)
      requires Valid()
      modifies this`pos
      ensures Valid()
      ensures closed ==> r == Failure(CursorClosed) && pos == old(pos)
      ensures !closed && old(pos) == |rows| ==> r == Failure(NoMoreRecords) && pos == old(pos)
      ensures !closed && old(pos) < |rows| ==> r == Success(rows[old(pos)]) && pos == old(pos) + 1
    {
      if closed {
        r := Failure(CursorClosed);
      } else if pos == |rows| {
        r := Failure(NoMoreRecords);
      } else {
        r := Success(rows[pos]);
        pos := pos + 1;
      }
    }

    /** `cursor.close()`: what the timer does once the deadline passes. */
    method Close()
      modifies this`closed
      ensures closed
    {
      closed := true;
    }
  }

  /** A pulse handed out by the iterator. It holds no record of its own: each
      call of `Xembly` reads the next record from the shared cursor. */
  class StoredPulse {
    const cursor: Cursor

    constructor (cursor: Cursor)
      ensures this.cursor == cursor
    {
      this.cursor := cursor;
    }

    /** `xembly()`: the script of the record under the cursor, advancing it. */
    method Xembly() returns (r: Result<string, CursorError>)
      requires cursor.Valid()
      modifies cursor`pos
      ensures cursor.Valid()
      ensures !cursor.closed && old(cursor.pos) < |cursor.rows| ==>
        r == Success(cursor.rows[old(cursor.pos)].xembly) && cursor.pos == old(cursor.pos) + 1
      ensures cursor.closed || old(cursor.pos) == |cursor.rows| ==> r.Failure? && cursor.pos == old(cursor.pos)
    {
      var next := cursor.Next();
      match next
      case Success(rec) => r := Success(rec.xembly);
      case Failure(e) => r := Failure(e);
    }

    /** `stream()` is not supported. */
    method Stream() returns (r: Result<seq<char>, Unsupported>)
      ensures r == Failure(UnsupportedOperation)
    {
      r := Failure(UnsupportedOperation);
    }
  }

  /** The iterator over a stand's pulses. */
  class PulseIterator {
    const cursor: Cursor

    constructor (cursor: Cursor)
      ensures this.cursor == cursor
    {
      this.cursor := cursor;
    }

    method HasNext() returns (more: bool)
      ensures more <==> !cursor.closed && cursor.pos < |cursor.rows|
    {
      more := cursor.HasNext();
    }

    /** `next()` hands out a new pulse over the same cursor and does not move
        the cursor (its frame is empty). */
    method Next() returns (p: StoredPulse)
      ensures fresh(p) && p.cursor == cursor
    {
      p := new StoredPulse(cursor);
    }

    /** `remove()` is not supported. */
    method Remove() returns (r: Result<Unit, Unsupported>)
      ensures r == Failure(UnsupportedOperation)
    {
      r := Failure(UnsupportedOperation);
    }
  }

  /** Since `next()` does not advance the cursor, two pulses taken from one
      iterator share it, and the record each returns depends on the order in
      which their `xembly()` is called, not on the order they were taken. */
  method ReadTwoPulses(it: PulseIterator) returns (second: Result<string, CursorError>, first: Result<string, CursorError>)
    requires it.cursor.Valid() && !it.cursor.closed
    requires it.cursor.pos + 2 <= |it.cursor.rows|
    modifies it.cursor`pos
    ensures var rows, at := it.cursor.rows, old(it.cursor.pos);
      second == Success(rows[at].xembly) && first == Success(rows[at + 1].xembly)
  {
    var p := it.Next();
    var q := it.Next();
    second := q.Xembly();
    first := p.Xembly();
  }

  /** A stand whose pulses are kept in the collection. `apply` is the Xembly
      applier; `warnings` collects what `Logger.warn` reports. */
  class Stand {
    const name: string
    const apply: Applier
    var collection: Collection
    var warnings: seq<string>

    /** The collection holds every record under its own key. */
    ghost predicate Valid()
      reads this
    {
      Keyed(collection)
    }

    constructor (name: string, apply: Applier, collection: Collection)
      requires Keyed(collection)
      ensures Valid()
      ensures this.name == name && this.apply == apply
      ensures this.collection == collection && warnings == []
    {
      this.name := name;
      this.apply := apply;
      this.collection := collection;
      warnings := [];
    }

    /** `append`: the script stored for (pulse, this stand), or nothing,
        followed by the fragment. */
    method Append(pulse: string, fragment: string) returns (script: string)
      ensures script == StoredScript(collection, Key(pulse, name)) + fragment
    {
      var builder := "";
      var k := Key(pulse, name);
      if k in collection {
        builder := builder + collection[k].xembly;
      }
      script := builder + fragment;
    }

    /** The private `post(pulse, dom, xembly)`: upsert the record of (pulse,
        this stand) with the script and the tags of `dom`, and fail with the
        store's message when the store rejects the write. */
    method Save(pulse: string, dom: Doc, script: string, now: string, verdict: WriteVerdict)
      returns (r: Result<Unit, PostError>)
      requires Valid()
      modifies this`collection
      ensures Valid()
      ensures verdict.Acknowledged? ==>
        collection == Upsert(old(collection), Record(pulse, name, now, script, Tags(dom))) && r == Success(Unit)
      ensures verdict.Rejected? ==>
        collection == old(collection) && r == Failure(WriteFailed(FailureMessage(pulse, verdict.message)))
    {
      var rec := Record(pulse, name, now, script, Tags(dom));
      match verdict
      case Acknowledged =>
        collection := collection[KeyOf(rec) := rec];
        r := Success(Unit);
      case Rejected(m) =>
        r := Failure(WriteFailed(FailureMessage(pulse, m)));
    }

    /** `post(pulse, xembly)` at time `now`, the store answering `verdict`. */
    method Post(pulse: string, fragment: string, now: string, verdict: WriteVerdict)
      returns (r: Result<Unit, PostError>)
      requires Valid()
      modifies this`collection, this`warnings
      ensures Valid()
      ensures var e := Posted(apply, old(collection), name, pulse, fragment, now, verdict);
        collection == e.collection && warnings == old(warnings) + e.warnings && r == e.result
    {
      var script := Append(pulse, fragment);
      var dom := EmptyDoc;
      var applied := apply(script, dom);
      match applied
      case Failure(e) =>
        warnings := warnings + [Warning(fragment, e)];
        r := Success(Unit);
      case Success(d) =>
        r := Save(pulse, d, script, now, verdict);
    }

    /** The private `iterator()`: open a cursor over this stand's records,
        most recently updated first. */
    method Iterator() returns (it: PulseIterator)
      ensures fresh(it) && fresh(it.cursor)
      ensures it.cursor.Valid() && it.cursor.pos == 0 && !it.cursor.closed
      ensures Lists(it.cursor.rows, it.cursor.keys, collection, name)
    {
      var rows: seq<Record> := [];
      ghost var keys: seq<Key> := [];
      var pending := collection.Keys;
      while pending != {}
        invariant ListedSoFar(rows, keys, collection, name, pending)
        decreases pending
      {
        var k :| k in pending;
        if collection[k].stand == name {
          ListingInserts(rows, keys, collection, name, pending, k);
          var r := collection[k];
          var i := InsertionPoint(rows, r);
          rows := rows[..i] + [r] + rows[i..];
          keys := keys[..i] + [k] + keys[i..];
        } else {
          ListingSkips(rows, keys, collection, name, pending, k);
        }
        pending := pending - {k};
      }
      var cursor := new Cursor(rows, keys);
      it := new PulseIterator(cursor);
    }

    /** `pulses()`: a page whose iterator opens a fresh cursor each time. */
    method Pulses() returns (page: PulsePage)
      ensures fresh(page) && page.stand == this
    {
      page := new PulsePage(this);
    }
  }

  /** The `Pageable` that `pulses()` returns. */
  class PulsePage {
    const stand: Stand

    constructor (stand: Stand)
      ensures this.stand == stand
    {
      this.stand := stand;
    }

    method Iterator() returns (it: PulseIterator)
      ensures fresh(it) && fresh(it.cursor)
      ensures it.cursor.Valid() && it.cursor.pos == 0 && !it.cursor.closed
      ensures Lists(it.cursor.rows, it.cursor.keys, stand.collection, stand.name)
    {
      it := stand.Iterator();
    }

    /** `tail(head)`: older pages are not supported, whatever the head. */
    method Tail(head: StoredPulse) returns (r: Result<PulsePage, Unsupported>)
      ensures r == Failure(UnsupportedOperation)
    {
      r := Failure(UnsupportedOperation);
    }
  }
}
