/**
 * The transcription history: records persisted in a table and a cache of
 * the newest ones, newest first, bounded by `max_history`.
 *
 * The database table is the sequence `table` in insertion order together
 * with the autoincrement counter; whether a statement raises is a
 * parameter of the operation that runs it.
 */
module History {
  import opened Common
  import opened Text

  datatype Record = Record(
    id: int, text: string, original: Option<string>, timestamp: real, duration: Option<real>, language: string)

  /** Python's `s[:n]`: a negative `n` counts from the end. */
  function PyTake<T>(s: seq<T>, n: int): (r: seq<T>)
    ensures r <= s
    ensures n >= 0 ==> |r| == if n <= |s| then n else |s|
    ensures n < 0 ==> |r| == if |s| + n >= 0 then |s| + n else 0
  {
    if n >= 0 then (if n <= |s| then s[..n] else s)
    else if |s| + n >= 0 then s[..|s| + n] else []
  }

  /** SQL's `LIMIT n`: a negative limit means no limit. */
  function SqlLimit<T>(s: seq<T>, n: int): (r: seq<T>)
    ensures r <= s
    ensures n < 0 ==> r == s
    ensures n >= 0 ==> |r| == if n <= |s| then n else |s|
  {
    if n < 0 || n >= |s| then s else s[..n]
  }

  function Reverse<T>(s: seq<T>): (r: seq<T>)
    ensures |r| == |s|
  {
    if s == [] then [] else Reverse(s[1..]) + [s[0]]
  }

  lemma {:induction false} ReverseSnoc<T>(s: seq<T>, x: T)
    ensures Reverse(s + [x]) == [x] + Reverse(s)
  {
    if s != [] {
      assert (s + [x])[1..] == s[1..] + [x];
      ReverseSnoc(s[1..], x);
    }
  }

  lemma {:induction false} ReverseSuffix<T>(s: seq<T>, k: nat)
    requires k <= |s|
    ensures Reverse(s[|s| - k..]) == Reverse(s)[..k]
    decreases |s|
  {
    if |s| > k {
      assert s[1..][|s[1..]| - k..] == s[|s| - k..];
      ReverseSuffix(s[1..], k);
    } else {
      assert s[|s| - k..] == s;
    }
  }

  /**
   * `_load_cache`: the newest `max` rows, newest first. Rows are ordered by
   * insertion, newest first, which is the timestamp order as long as the
   * clock does not go backwards.
   */
  function Newest(table: seq<Record>, max: int): (r: seq<Record>)
    ensures max >= 0 ==> |r| <= max
    ensures |r| <= |table|
    ensures forall i :: 0 <= i < |r| ==> r[i] == table[|table| - 1 - i]
  {
    ReverseIndex(table);
    SqlLimit(Reverse(table), max)
  }

  lemma {:induction false} ReverseIndex<T>(s: seq<T>)
    ensures forall i :: 0 <= i < |s| ==> Reverse(s)[i] == s[|s| - 1 - i]
  {
    if s != [] {
      ReverseIndex(s[1..]);
    }
  }

  /** `_cleanup_old_records`: keep the rows among the newest `max`, in table order. */
  function KeepNewest(table: seq<Record>, max: int): (r: seq<Record>)
    ensures max < 0 ==> r == table
    ensures max >= 0 ==> |r| == (if max <= |table| then max else |table|) && r == table[|table| - |r|..]
  {
    if max < 0 || max >= |table| then table else table[|table| - max..]
  }

  /** Adding a record and trimming the cache keeps it equal to the newest rows of the grown table. */
  lemma AddKeepsCacheNewest(table: seq<Record>, r: Record, max: int)
    requires max >= 0
    ensures Newest(table + [r], max) == PyTake([r] + Newest(table, max), max)
  {
    ReverseSnoc(table, r);
  }

  /** The cleanup removes no row the cache holds. */
  lemma CleanupKeepsCacheNewest(table: seq<Record>, max: int)
    ensures Newest(KeepNewest(table, max), max) == Newest(table, max)
  {
    if 0 <= max < |table| {
      ReverseSuffix(table, max);
    }
  }

  /** Ids grow with insertion and none exceeds the autoincrement counter. */
  predicate IdsOk(table: seq<Record>, sequence: int)
  {
    (forall i :: 0 <= i < |table| ==> table[i].id <= sequence)
    && (forall i, j :: 0 <= i < j < |table| ==> table[i].id < table[j].id)
  }

  /** An inserted row takes the next id, which exceeds every earlier one. */
  lemma InsertKeepsIdsOk(table: seq<Record>, sequence: int, r: Record)
    requires IdsOk(table, sequence) && r.id == sequence + 1
    ensures IdsOk(table + [r], sequence + 1)
  {
  }

  lemma KeepNewestKeepsIdsOk(table: seq<Record>, sequence: int, max: int)
    requires IdsOk(table, sequence)
    ensures IdsOk(KeepNewest(table, max), sequence)
  {
    if 0 <= max < |table| {
      var r := table[|table| - max..];
      var d := |table| - max;
      forall i | 0 <= i < |r| ensures r[i].id <= sequence {
        assert r[i] == table[d + i];
      }
      forall i, j | 0 <= i < j < |r| ensures r[i].id < r[j].id {
        assert r[i] == table[d + i] && r[j] == table[d + j];
      }
    }
  }

  /** Python's `not text or not text.strip()`. */
  predicate Blank(text: string)
  {
    text == "" || AllSpace(text)
  }

  class HistoryStore {
    const maxHistory: int
    /** The `transcription_history` table, in insertion order. */
    var table: seq<Record>
    /** The largest id the autoincrement counter has handed out. */
    var sequence: int
    var cache: seq<Record>
    var connected: bool
    var isInitialized: bool

    ghost predicate Valid()
      reads this
    {
      IdsOk(table, sequence)
      && (isInitialized ==> connected)
      && (isInitialized && maxHistory >= 0 ==> cache == Newest(table, maxHistory))
    }

    /** A store over an existing table; the cache is empty until `initialize`. */
    constructor (maxHistory: int, table: seq<Record>, sequence: int)
      requires IdsOk(table, sequence)
      ensures Valid()
      ensures this.maxHistory == maxHistory && this.table == table && this.sequence == sequence
      ensures cache == [] && !connected && !isInitialized
    {
      this.maxHistory := maxHistory;
      this.table := table;
      this.sequence := sequence;
      cache := [];
      connected := false;
      isInitialized := false;
    }

    /** `initialize`: once; connects and loads the newest rows into the cache. */
    method Initialize()
      requires Valid()
      modifies this
      ensures Valid() && isInitialized && connected
      ensures table == old(table) && sequence == old(sequence)
      ensures old(isInitialized) ==> cache == old(cache)
      ensures !old(isInitialized) ==> cache == Newest(table, maxHistory)
    {
      if isInitialized {
        return;
      }
      connected := true;
      cache := Newest(table, maxHistory);
      isInitialized := true;
    }

    /**
     * `add`: a blank text is not stored; a failing insert changes nothing;
     * otherwise the row gets the next id, goes to the front of the cache,
     * the cache is cut to `max_history` and, once it is full, the table
     * loses the rows older than the newest `max_history` (unless that
     * statement fails).
     */
    method Add(text: string, original: Option<string>, duration: Option<real>, language: string,
               timestamp: real, insertOk: bool, cleanupOk: bool)
      requires Valid()
      modifies this
      ensures Valid() && isInitialized
      ensures Blank(text) || !insertOk ==>
        (table == old(table) && sequence == old(sequence)
         && cache == (if old(isInitialized) then old(cache) else Newest(table, maxHistory)))
      ensures !Blank(text) && insertOk ==>
        var rec := Record(old(sequence) + 1, text, original, timestamp, duration, language);
        var cache0 := if old(isInitialized) then old(cache) else Newest(old(table), maxHistory);
        sequence == old(sequence) + 1
        && cache == PyTake([rec] + cache0, maxHistory)
        && table == (if |cache| >= maxHistory && cleanupOk then KeepNewest(old(table) + [rec], maxHistory)
                     else old(table) + [rec])
    {
      if !isInitialized {
        Initialize();
      }
      if text == "" || AllSpace(text) {
        return;
      }
      if !insertOk {
        return;
      }
      Insert(text, original, duration, language, timestamp, cleanupOk);
    }

    /** The successful insert of `add`: new row, new cache front, trimming and cleanup. */
    method Insert(text: string, original: Option<string>, duration: Option<real>, language: string,
                  timestamp: real, cleanupOk: bool)
      requires Valid() && isInitialized
      modifies this
      ensures Valid() && isInitialized
      ensures var rec := Record(old(sequence) + 1, text, original, timestamp, duration, language);
        sequence == old(sequence) + 1
        && cache == PyTake([rec] + old(cache), maxHistory)
        && table == (if |cache| >= maxHistory && cleanupOk then KeepNewest(old(table) + [rec], maxHistory)
                     else old(table) + [rec])
    {
      var recordId := sequence + 1;
      var rec := Record(recordId, text, original, timestamp, duration, language);
      InsertKeepsIdsOk(table, sequence, rec);
      if maxHistory >= 0 {
        AddKeepsCacheNewest(table, rec, maxHistory);
      }
      table := table + [rec];
      sequence := recordId;
      cache := PyTake([rec] + cache, maxHistory);
      if |cache| >= maxHistory && cleanupOk {
        Cleanup();
      }
    }

    /** `_cleanup_old_records`, after a successful delete. */
    method Cleanup()
      requires Valid()
      modifies this
      ensures Valid()
      ensures table == KeepNewest(old(table), maxHistory)
      ensures cache == old(cache) && sequence == old(sequence)
      ensures connected == old(connected) && isInitialized == old(isInitialized)
    {
      var kept := KeepNewest(table, maxHistory);
      assert IdsOk(kept, sequence) by {
        KeepNewestKeepsIdsOk(table, sequence, maxHistory);
      }
      assert isInitialized && maxHistory >= 0 ==> cache == Newest(kept, maxHistory) by {
        CleanupKeepsCacheNewest(table, maxHistory);
      }
      table := kept;
    }

    /** `get_recent`: the texts of the first `limit` cached records, newest first. */
    method GetRecent(limit: int) returns (texts: seq<string>)
      requires Valid()
      modifies this
      ensures Valid() && isInitialized && table == old(table) && sequence == old(sequence)
      ensures cache == (if old(isInitialized) then old(cache) else Newest(table, maxHistory))
      ensures |texts| == |PyTake(cache, limit)|
      ensures forall i :: 0 <= i < |texts| ==> texts[i] == cache[i].text
    {
      if !isInitialized {
        Initialize();
      }
      var recent := PyTake(cache, limit);
      texts := seq(|recent|, i requires 0 <= i < |recent| => recent[i].text);
    }

    /** `get_recent_records`: the first `limit` cached records, newest first. */
    method GetRecentRecords(limit: int) returns (records: seq<Record>)
      requires Valid()
      modifies this
      ensures Valid() && isInitialized && table == old(table) && sequence == old(sequence)
      ensures cache == (if old(isInitialized) then old(cache) else Newest(table, maxHistory))
      ensures records == PyTake(cache, limit)
    {
      if !isInitialized {
        Initialize();
      }
      records := PyTake(cache, limit);
    }

    /** `clear`: nothing before `initialize`; a failing delete changes nothing; otherwise table and cache empty. */
    method Clear(deleteOk: bool)
      requires Valid()
      modifies this
      ensures Valid() && sequence == old(sequence) && isInitialized == old(isInitialized)
      ensures old(isInitialized) && deleteOk ==> table == [] && cache == []
      ensures !old(isInitialized) || !deleteOk ==> table == old(table) && cache == old(cache)
    {
      if !isInitialized {
        return;
      }
      if deleteOk {
        table := [];
        cache := [];
      }
    }

    /** `close`: drops the connection, so the next use loads the cache again. */
    method Close(closeOk: bool)
      requires Valid()
      modifies this
      ensures Valid() && table == old(table) && cache == old(cache) && sequence == old(sequence)
      ensures old(connected) && closeOk ==> !connected && !isInitialized
      ensures !(old(connected) && closeOk) ==> connected == old(connected) && isInitialized == old(isInitialized)
    {
      if connected && closeOk {
        connected := false;
        isInitialized := false;
      }
    }

    /** `count`: the number of cached records. */
    function Count(): (n: nat)
      reads this
      requires Valid()
      ensures isInitialized && maxHistory >= 0 ==> n <= maxHistory && n <= |table|
    {
      |cache|
    }
  }
}
