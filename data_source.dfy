/** The bounded, ordered row store the plugin creates with a capacity limit.
    The store appends at the tail and, once it holds more than `limit`
    entries, drops a chunk of the oldest ones. How many it drops at once is
    the library's choice; here it is the parameter `chunk` (at least one). */
module DataSources {
  import opened Entries

  /** `r` is what is left of `s` after dropping some entries from the front. */
  predicate IsSuffix(r: seq<LogEntry>, s: seq<LogEntry>) {
    |r| <= |s| && r == s[|s| - |r|..]
  }

  /** The configuration of a store: its capacity and its eviction chunk. */
  predicate WellConfigured(limit: nat, chunk: nat) {
    0 < limit && chunk <= limit
  }

  /** Number of oldest entries dropped when an append overflows the store. */
  function EvictionSize(chunk: nat): (d: nat)
    ensures 1 <= d && chunk <= d
  {
    if chunk == 0 then 1 else chunk
  }

  /** The rows after appending `e` to a store holding `s`. */
  function Appended(s: seq<LogEntry>, e: LogEntry, limit: nat, chunk: nat): (r: seq<LogEntry>)
    requires WellConfigured(limit, chunk) && |s| <= limit
    ensures 0 < |r| <= limit
    ensures IsSuffix(r, s + [e])
    ensures r[|r| - 1] == e
    ensures r == s + [e] <==> |s| < limit
  {
    var t := s + [e];
    if |t| <= limit then t else t[EvictionSize(chunk)..]
  }

  lemma SuffixOfSelf(s: seq<LogEntry>)
    ensures IsSuffix(s, s)
  {
  }

  /** Dropping from the front twice is dropping from the front once. */
  lemma SuffixTransitive(a: seq<LogEntry>, b: seq<LogEntry>, c: seq<LogEntry>)
    requires IsSuffix(a, b) && IsSuffix(b, c)
    ensures IsSuffix(a, c)
  {
    assert c[|c| - |b|..][|b| - |a|..] == c[|c| - |a|..];
  }

  /** Appending the same entries behind a suffix keeps it a suffix. */
  lemma SuffixExtend(a: seq<LogEntry>, b: seq<LogEntry>, c: seq<LogEntry>)
    requires IsSuffix(a, b)
    ensures IsSuffix(a + c, b + c)
  {
    assert (b + c)[|b + c| - |a + c|..] == b[|b| - |a|..] + c;
  }

  /** One append followed by the rest of a batch keeps the result a suffix
      of the whole batch behind the old rows. */
  lemma SuffixThenRest(r: seq<LogEntry>, mid: seq<LogEntry>, s: seq<LogEntry>, batch: seq<LogEntry>)
    requires batch != []
    requires IsSuffix(mid, s + [batch[0]]) && IsSuffix(r, mid + batch[1..])
    ensures IsSuffix(r, s + batch)
  {
    SuffixExtend(mid, s + [batch[0]], batch[1..]);
    assert s + [batch[0]] + batch[1..] == s + batch;
    SuffixTransitive(r, mid + batch[1..], s + batch);
  }

  /** The row store of the plugin: a capacity, an eviction chunk and the
      rows it currently holds, oldest first. */
  class DataSource {
    const limit: nat
    const chunk: nat
    var records: seq<LogEntry>

    ghost predicate Valid()
      reads this
    {
      WellConfigured(limit, chunk) && |records| <= limit
    }

    constructor (limit: nat, chunk: nat)
      requires WellConfigured(limit, chunk)
      ensures Valid()
      ensures this.limit == limit && this.chunk == chunk && records == []
    {
      this.limit := limit;
      this.chunk := chunk;
      records := [];
    }

    /** Adds `e` at the tail, dropping the oldest chunk when the store overflows. */
    method Append(e: LogEntry)
      requires Valid()
      modifies this
      ensures Valid()
      ensures records == Appended(old(records), e, limit, chunk)
    {
      records := records + [e];
      if |records| > limit {
        records := records[EvictionSize(chunk)..];
      }
    }

    /** Removes every row. */
    method Clear()
      requires Valid()
      modifies this
      ensures Valid()
      ensures records == []
    {
      records := [];
    }
  }
}
