/** The bounded interaction history: a newest-first list kept in a backing file, rewritten in
    full on every change. */
module History {
  import opened Wrappers
  import opened Base

  /** One stored conversation; `modelType` is the task type's string value. */
  datatype Interaction = Interaction(
    id: string,
    messages: seq<Message>,
    provider: string,
    modelType: string,
    title: string,
    timestamp: string)

  /** The backing file: absent, present but not readable as a list of interactions, or a list. */
  datatype StoreFile = Missing | Unreadable | Stored(records: seq<Interaction>)

  /** `_load_history`: the stored list; a missing or unreadable file reads as empty. */
  function Load(f: StoreFile): (h: seq<Interaction>)
    ensures f.Stored? ==> h == f.records
    ensures !f.Stored? ==> h == []
  {
    match f
    case Stored(records) => records
    case _ => []
  }

  /** No two records share an id. */
  ghost predicate UniqueIds(h: seq<Interaction>) {
    forall i, j :: 0 <= i < j < |h| ==> h[i].id != h[j].id
  }

  /** Python's `s[:n]`: a prefix of `s`; a negative `n` drops that many elements from the end. */
  function SliceTo<T>(s: seq<T>, n: int): (r: seq<T>)
    ensures r <= s
    ensures n >= 0 ==> |r| == (if n < |s| then n else |s|)
    ensures n < 0 ==> |r| == (if |s| + n > 0 then |s| + n else 0)
  {
    if n >= 0 then (if n < |s| then s[..n] else s)
    else (if |s| + n > 0 then s[..|s| + n] else [])
  }

  /** `[h for h in history if h["id"] != id]`. */
  function WithoutId(h: seq<Interaction>, id: string): (r: seq<Interaction>)
    ensures |r| <= |h|
    ensures forall x :: x in r <==> x in h && x.id != id
    decreases |h|
  {
    if h == [] then []
    else if h[0].id != id then [h[0]] + WithoutId(h[1..], id)
    else WithoutId(h[1..], id)
  }

  /** Filtering keeps order: it distributes over concatenation. */
  lemma {:induction false} WithoutIdAppend(a: seq<Interaction>, b: seq<Interaction>, id: string)
    ensures WithoutId(a + b, id) == WithoutId(a, id) + WithoutId(b, id)
    decreases |a|
  {
    if a == [] {
      assert a + b == b;
    } else {
      assert (a + b)[1..] == a[1..] + b;
      WithoutIdAppend(a[1..], b, id);
    }
  }

  /** Filtering out an id no record has changes nothing. */
  lemma {:induction false} WithoutIdAbsent(h: seq<Interaction>, id: string)
    requires forall i :: 0 <= i < |h| ==> h[i].id != id
    ensures WithoutId(h, id) == h
    decreases |h|
  {
    if h != [] {
      WithoutIdAbsent(h[1..], id);
    }
  }

  /** Filtering keeps ids unique. */
  lemma {:induction false} WithoutIdUnique(h: seq<Interaction>, id: string)
    requires UniqueIds(h)
    ensures UniqueIds(WithoutId(h, id))
    decreases |h|
  {
    if h != [] {
      var rest := WithoutId(h[1..], id);
      assert UniqueIds(h[1..]) by {
        forall i, j | 0 <= i < j < |h[1..]| ensures h[1..][i].id != h[1..][j].id {
          assert h[1..][i] == h[i + 1] && h[1..][j] == h[j + 1];
        }
      }
      WithoutIdUnique(h[1..], id);
      if h[0].id != id {
        forall j | 0 <= j < |rest| ensures rest[j].id != h[0].id {
          assert rest[j] in h[1..];
          var k :| 0 <= k < |h[1..]| && h[1..][k] == rest[j];
          assert h[k + 1] == rest[j];
        }
        var r := [h[0]] + rest;
        forall i, j | 0 <= i < j < |r| ensures r[i].id != r[j].id {
          if i == 0 {
            assert r[j] == rest[j - 1];
          } else {
            assert r[i] == rest[i - 1] && r[j] == rest[j - 1];
          }
        }
      }
    }
  }

  /** The list `add_interaction` stores: the new record first, then the old records without its
      id in their order, cut to `maxHistory` with slice semantics. */
  function Added(h: seq<Interaction>, rec: Interaction, maxHistory: int): (r: seq<Interaction>)
    ensures |r| <= |h| + 1
    ensures forall x :: x in r ==> x == rec || (x in h && x.id != rec.id)
  {
    var s := [rec] + WithoutId(h, rec.id);
    var r := SliceTo(s, maxHistory);
    assert forall x :: x in r ==> x in s;
    r
  }

  /** With room for at least one record, the new record heads the list and is the only one
      with its id. */
  lemma AddedHead(h: seq<Interaction>, rec: Interaction, maxHistory: int)
    requires maxHistory >= 1
    ensures var r := Added(h, rec, maxHistory);
      && |r| >= 1 && r[0] == rec
      && forall i :: 0 < i < |r| ==> r[i].id != rec.id
  {
  }

  /** The stored list never exceeds a non-negative maximum. */
  lemma AddedBounded(h: seq<Interaction>, rec: Interaction, maxHistory: int)
    requires maxHistory >= 0
    ensures |Added(h, rec, maxHistory)| <= maxHistory
  {
  }

  /** Unique ids before an add stay unique after it. */
  lemma AddedUnique(h: seq<Interaction>, rec: Interaction, maxHistory: int)
    requires UniqueIds(h)
    ensures UniqueIds(Added(h, rec, maxHistory))
  {
    var w := WithoutId(h, rec.id);
    WithoutIdUnique(h, rec.id);
    var full := [rec] + w;
    forall i, j | 0 <= i < j < |full| ensures full[i].id != full[j].id {
      assert full[j] == w[j - 1] && w[j - 1] in w;
      if i > 0 {
        assert full[i] == w[i - 1];
      }
    }
    var r := Added(h, rec, maxHistory);
    forall i, j | 0 <= i < j < |r| ensures r[i].id != r[j].id {
      assert r[i] == full[i] && r[j] == full[j];
    }
  }

  /** Adding a new id keeps the newest records: the oldest beyond the maximum are evicted. */
  lemma AddedEvictsOldest(h: seq<Interaction>, rec: Interaction, maxHistory: int)
    requires maxHistory >= 1
    requires forall i :: 0 <= i < |h| ==> h[i].id != rec.id
    ensures Added(h, rec, maxHistory) ==
              [rec] + h[..if maxHistory - 1 < |h| then maxHistory - 1 else |h|]
  {
    WithoutIdAbsent(h, rec.id);
    var full := [rec] + h;
    var n := if maxHistory - 1 < |h| then maxHistory - 1 else |h|;
    assert full[..n + 1] == [rec] + h[..n];
  }

  /** In a list with unique ids, filtering out the id of record `k` removes exactly that record. */
  lemma WithoutIdRemovesOne(h: seq<Interaction>, k: nat)
    requires UniqueIds(h)
    requires k < |h|
    ensures WithoutId(h, h[k].id) == h[..k] + h[k + 1..]
  {
    var id := h[k].id;
    var a, b := h[..k], h[k + 1..];
    assert h == (a + [h[k]]) + b;
    WithoutIdAppend(a + [h[k]], b, id);
    WithoutIdAppend(a, [h[k]], id);
    assert WithoutId([h[k]], id) == [] by {
      assert [h[k]][1..] == [];
    }
    forall i | 0 <= i < |a| ensures a[i].id != id {
      assert a[i] == h[i];
    }
    WithoutIdAbsent(a, id);
    forall i | 0 <= i < |b| ensures b[i].id != id {
      assert b[i] == h[k + 1 + i];
    }
    WithoutIdAbsent(b, id);
    assert a + [] == a;
  }

  /** Adding an existing id replaces that record: it moves to the front, the others keep their
      order, and a list within the maximum keeps its length. */
  lemma AddedReplaces(h: seq<Interaction>, k: nat, rec: Interaction, maxHistory: int)
    requires UniqueIds(h)
    requires k < |h| && h[k].id == rec.id
    requires |h| <= maxHistory
    ensures Added(h, rec, maxHistory) == [rec] + h[..k] + h[k + 1..]
    ensures |Added(h, rec, maxHistory)| == |h|
  {
    WithoutIdRemovesOne(h, k);
    assert [rec] + (h[..k] + h[k + 1..]) == [rec] + h[..k] + h[k + 1..];
  }

  /** Index of the first record with `id`; `|h|` when there is none. */
  function FirstIndex(h: seq<Interaction>, id: string): (k: nat)
    ensures k <= |h|
    ensures forall j :: 0 <= j < k ==> h[j].id != id
    ensures k < |h| ==> h[k].id == id
    decreases |h|
  {
    if h == [] then 0
    else if h[0].id == id then 0
    else 1 + FirstIndex(h[1..], id)
  }

  /** `get_interaction` as a value: the first record with `id`, None when no record has it. */
  function Find(h: seq<Interaction>, id: string): (r: Option<Interaction>)
    ensures r.None? <==> forall i :: 0 <= i < |h| ==> h[i].id != id
    ensures r.Some? ==> exists k :: 0 <= k < |h| && h[k] == r.value && h[k].id == id &&
                                    forall j :: 0 <= j < k ==> h[j].id != id
  {
    var k := FirstIndex(h, id);
    if k < |h| then Some(h[k]) else None
  }

  /** After an add, looking up its id gives exactly the record just added. */
  lemma FindAfterAdd(h: seq<Interaction>, rec: Interaction, maxHistory: int)
    requires maxHistory >= 1
    ensures Find(Added(h, rec, maxHistory), rec.id) == Some(rec)
  {
  }

  /** The history manager: the configured maximum and the backing file it rewrites. */
  class HistoryManager {
    const maxHistory: int
    var file: StoreFile

    constructor (maxHistory: int, file: StoreFile)
      ensures this.maxHistory == maxHistory && this.file == file
    {
      this.maxHistory := maxHistory;
      this.file := file;
    }

    /** What loading the file gives now. */
    function Contents(): seq<Interaction>
      reads this
    {
      Load(file)
    }

    /** The shape every write keeps: unique ids and, for a non-negative maximum, bounded length. */
    ghost predicate Valid()
      reads this
    {
      UniqueIds(Contents()) && (maxHistory >= 0 ==> |Contents()| <= maxHistory)
    }

    /** `_save_history`: rewrites the whole file; when it cannot be opened for writing the error is
        only printed and the file stays as it was. */
    method Save(history: seq<Interaction>, writable: bool)
      modifies this
      ensures file == (if writable then Stored(history) else old(file))
    {
      if writable {
        file := Stored(history);
      }
    }

    /** `add_interaction`, with `now` the timestamp the clock gives. */
    method AddInteraction(id: string, messages: seq<Message>, provider: string, modelType: string,
                          title: string, now: string, writable: bool)
      modifies this
      ensures writable ==>
        file == Stored(Added(old(Contents()), Interaction(id, messages, provider, modelType, title, now), maxHistory))
      ensures !writable ==> file == old(file)
      ensures writable && UniqueIds(old(Contents())) ==> Valid()
      ensures old(Valid()) ==> Valid()
    {
      var history := Load(file);
      ghost var before := history;
      var interaction := Interaction(id, messages, provider, modelType, title, now);
      history := WithoutId(history, id);
      history := [interaction] + history;
      history := SliceTo(history, maxHistory);
      Save(history, writable);
      if writable && UniqueIds(before) {
        AddedUnique(before, interaction, maxHistory);
      }
      if writable {
        if maxHistory >= 0 {
          AddedBounded(before, interaction, maxHistory);
        }
      }
    }

    /** `get_history`. */
    method GetHistory() returns (h: seq<Interaction>)
      ensures h == Contents()
      ensures !file.Stored? ==> h == []
    {
      h := Load(file);
    }

    /** `get_interaction`: a linear scan that stops at the first match. */
    method GetInteraction(id: string) returns (r: Option<Interaction>)
      ensures r == Find(Contents(), id)
      ensures r.Some? ==> r.value in Contents() && r.value.id == id
      ensures r.None? <==> forall i :: 0 <= i < |Contents()| ==> Contents()[i].id != id
    {
      var history := Load(file);
      var i := 0;
      while i < |history|
        invariant 0 <= i <= |history|
        invariant forall j :: 0 <= j < i ==> history[j].id != id
      {
        if history[i].id == id {
          return Some(history[i]);
        }
        i := i + 1;
      }
      return None;
    }

    /** `clear_history`: saves the empty list. */
    method ClearHistory(writable: bool)
      modifies this
      ensures writable ==> file == Stored([]) && Contents() == []
      ensures !writable ==> file == old(file)
      ensures old(Valid()) ==> Valid()
    {
      Save([], writable);
    }
  }

  /** A client of the manager: clearing and then reading gives the empty history. */
  method ClearThenGet(m: HistoryManager) returns (h: seq<Interaction>)
    modifies m
    ensures h == []
  {
    m.ClearHistory(true);
    h := m.GetHistory();
  }

  /** A client of the manager: adding the same id twice to an empty store keeps one record,
      the later one. */
  method AddSameIdTwice(m: HistoryManager, first: seq<Message>, second: seq<Message>, now: string)
    returns (h: seq<Interaction>)
    requires m.maxHistory >= 1 && m.file == Missing
    modifies m
    ensures h == [Interaction("a1", second, "Ollama", "text-completion", "hi", now)]
  {
    m.AddInteraction("a1", first, "Ollama", "text-completion", "hi", now, true);
    h := m.GetHistory();
    assert h == [Interaction("a1", first, "Ollama", "text-completion", "hi", now)];
    assert WithoutId(h, "a1") == [] by {
      assert h[1..] == [];
    }
    m.AddInteraction("a1", second, "Ollama", "text-completion", "hi", now, true);
    h := m.GetHistory();
  }
}
