/** A size-bounded, in-memory log buffer. Every entry is appended to a FIFO
    buffer; when the UTF-8 size of the buffer plus the new entry would exceed
    the configured maximum, the oldest entries are dropped first. Every entry
    is also handed to a write queue that a background writer drains to disk. */
module CircularLog {

  /** Number of bytes UTF-8 uses for one Unicode scalar value (RFC 3629, section 3). */
  function CharUtf8Size(c: char): (n: nat)
    ensures 1 <= n <= 4
    ensures (c as int) < 0x80 <==> n == 1
  {
    if (c as int) < 0x80 then 1
    else if (c as int) < 0x800 then 2
    else if (c as int) < 0x10000 then 3
    else 4
  }

  /** Length of `s.encode('utf-8')`: between one and four bytes per character. */
  function Utf8Size(s: string): (n: nat)
    ensures |s| <= n <= 4 * |s|
  {
    if s == [] then 0 else CharUtf8Size(s[0]) + Utf8Size(s[1..])
  }

  /** The UTF-8 size of a concatenation is the sum of the sizes. */
  lemma {:induction false} Utf8SizeConcat(a: string, b: string)
    ensures Utf8Size(a + b) == Utf8Size(a) + Utf8Size(b)
  {
    if a != [] {
      assert (a + b)[0] == a[0];
      assert (a + b)[1..] == a[1..] + b;
      Utf8SizeConcat(a[1..], b);
    } else {
      assert a + b == b;
    }
  }

  /** Pure ASCII takes one byte per character. */
  lemma {:induction false} Utf8SizeAscii(s: string)
    ensures (forall i :: 0 <= i < |s| ==> (s[i] as int) < 0x80) ==> Utf8Size(s) == |s|
  {
    if s != [] {
      Utf8SizeAscii(s[1..]);
      assert forall i :: 0 <= i < |s| - 1 ==> s[1..][i] == s[i + 1];
    }
  }

  const DefaultMaxSize: int := 1024 * 90

  const Debug: string := "DEBUG"
  const Info: string := "INFO"
  const Warning: string := "WARNING"
  const Error: string := "ERROR"

  /** The text of one entry: `[timestamp] [LEVEL] message` and a newline. */
  function FormatEntry(timestamp: string, level: string, message: string): (entry: string)
    ensures |entry| == |timestamp| + |level| + |message| + 7
    ensures entry[0] == '[' && entry[|entry| - 1] == '\n'
  {
    "[" + timestamp + "] [" + level + "] " + message + "\n"
  }

  /** An entry costs its three fields plus seven ASCII bytes of framing. */
  lemma EntrySize(timestamp: string, level: string, message: string)
    ensures Utf8Size(FormatEntry(timestamp, level, message))
         == Utf8Size(timestamp) + Utf8Size(level) + Utf8Size(message) + 7
  {
    var s1 := "[" + timestamp;
    var s2 := s1 + "] [";
    var s3 := s2 + level;
    var s4 := s3 + "] ";
    var s5 := s4 + message;
    assert Utf8Size("[") == 1 && Utf8Size("] [") == 3 && Utf8Size("] ") == 2 && Utf8Size("\n") == 1;
    Utf8SizeConcat("[", timestamp);
    Utf8SizeConcat(s1, "] [");
    Utf8SizeConcat(s2, level);
    Utf8SizeConcat(s3, "] ");
    Utf8SizeConcat(s4, message);
    Utf8SizeConcat(s5, "\n");
    assert FormatEntry(timestamp, level, message) == s5 + "\n";
  }

  /** Index of the first occurrence of `c` in `s`, or `|s|` when there is none. */
  function IndexOf(s: string, c: char): (k: nat)
    ensures k <= |s|
    ensures k < |s| ==> s[k] == c
    ensures forall i :: 0 <= i < k ==> s[i] != c
  {
    if s == [] then 0
    else if s[0] == c then 0
    else 1 + IndexOf(s[1..], c)
  }

  datatype Split = NoSplit | SplitAt(field: string, rest: string)

  /** Cuts `s` at its first `]`, which must open the delimiter `close`. */
  function SplitField(s: string, close: string): Split
  {
    var i := IndexOf(s, ']');
    if i + |close| <= |s| && s[i..i + |close|] == close then SplitAt(s[..i], s[i + |close|..])
    else NoSplit
  }

  lemma SplitFieldOf(field: string, close: string, rest: string)
    requires ']' !in field
    requires |close| > 0 && close[0] == ']'
    ensures SplitField(field + close + rest, close) == SplitAt(field, rest)
  {
    var s := field + close + rest;
    assert s[|field|] == ']';
    assert IndexOf(s, ']') == |field|;
    assert s[|field|..|field| + |close|] == close;
    assert s[..|field|] == field;
    assert s[|field| + |close|..] == rest;
  }

  datatype ParsedEntry = NoParse | Fields(timestamp: string, level: string, message: string)

  /** Splits an entry back into timestamp, level and message. */
  function ParseEntry(entry: string): ParsedEntry
  {
    if |entry| < 2 || entry[0] != '[' || entry[|entry| - 1] != '\n' then NoParse
    else match SplitField(entry[1..|entry| - 1], "] [")
      case NoSplit => NoParse
      case SplitAt(timestamp, rest) =>
        match SplitField(rest, "] ")
        case NoSplit => NoParse
        case SplitAt(level, message) => Fields(timestamp, level, message)
  }

  /** An entry is its opening bracket, its fields with their delimiters, and a newline. */
  lemma EntryFrame(timestamp: string, level: string, message: string)
    ensures var entry := FormatEntry(timestamp, level, message);
      && |entry| >= 2 && entry[0] == '[' && entry[|entry| - 1] == '\n'
      && entry[1..|entry| - 1] == timestamp + "] [" + (level + "] " + message)
  {
    var inner := timestamp + "] [" + (level + "] " + message);
    assert FormatEntry(timestamp, level, message) == "[" + inner + "\n";
  }

  /** Formatting is undone by parsing when neither the timestamp nor the
      level contains a closing bracket. */
  lemma ParseFormatRoundTrip(timestamp: string, level: string, message: string)
    requires ']' !in timestamp && ']' !in level
    ensures ParseEntry(FormatEntry(timestamp, level, message)) == Fields(timestamp, level, message)
  {
    EntryFrame(timestamp, level, message);
    SplitFieldOf(timestamp, "] [", level + "] " + message);
    SplitFieldOf(level, "] ", message);
  }

  /** Sum of the UTF-8 sizes of the entries of a buffer. */
  function TotalSize(buffer: seq<string>): (total: nat)
    ensures buffer == [] ==> total == 0
    ensures buffer != [] ==> Utf8Size(buffer[0]) <= total
  {
    if buffer == [] then 0 else Utf8Size(buffer[0]) + TotalSize(buffer[1..])
  }

  lemma {:induction false} TotalSizeAppend(buffer: seq<string>, entry: string)
    ensures TotalSize(buffer + [entry]) == TotalSize(buffer) + Utf8Size(entry)
  {
    if buffer != [] {
      assert (buffer + [entry])[1..] == buffer[1..] + [entry];
      TotalSizeAppend(buffer[1..], entry);
    }
  }

  /** `''.join(buffer)`. */
  function Join(buffer: seq<string>): (text: string)
    ensures buffer == [] ==> text == ""
    ensures forall i :: 0 <= i < |buffer| ==> |buffer[i]| <= |text|
  {
    if buffer == [] then "" else buffer[0] + Join(buffer[1..])
  }

  /** The joined buffer has the same UTF-8 size as the sum of its entries. */
  lemma {:induction false} JoinSize(buffer: seq<string>)
    ensures Utf8Size(Join(buffer)) == TotalSize(buffer)
  {
    if buffer != [] {
      Utf8SizeConcat(buffer[0], Join(buffer[1..]));
      JoinSize(buffer[1..]);
    }
  }

  /** The joined buffer of `buffer + [entry]` ends with `entry`. */
  lemma {:induction false} JoinAppend(buffer: seq<string>, entry: string)
    ensures Join(buffer + [entry]) == Join(buffer) + entry
  {
    if buffer == [] {
      assert [entry][1..] == [];
    } else {
      assert (buffer + [entry])[1..] == buffer[1..] + [entry];
      JoinAppend(buffer[1..], entry);
    }
  }

  /** The entries that survive when an entry of `incoming` bytes is added:
      the oldest entries are dropped while the kept entries plus the newcomer
      exceed `maxSize` and something is left to drop. */
  function Evict(buffer: seq<string>, incoming: nat, maxSize: int): (kept: seq<string>)
    ensures |kept| <= |buffer| && kept == buffer[|buffer| - |kept|..]
    ensures TotalSize(buffer) + incoming <= maxSize ==> kept == buffer
  {
    if |buffer| > 0 && TotalSize(buffer) + incoming > maxSize
    then Evict(buffer[1..], incoming, maxSize)
    else buffer
  }

  /** Eviction drops the shortest prefix after which the new entry fits:
      what is kept is a suffix of the old buffer, every shorter drop would
      still overflow, and what is kept (when not empty) makes room. */
  lemma {:induction false} EvictDropsShortestPrefix(buffer: seq<string>, incoming: nat, maxSize: int)
    ensures |Evict(buffer, incoming, maxSize)| <= |buffer|
    ensures Evict(buffer, incoming, maxSize) == buffer[|buffer| - |Evict(buffer, incoming, maxSize)|..]
    ensures forall j :: 0 <= j < |buffer| - |Evict(buffer, incoming, maxSize)| ==>
              TotalSize(buffer[j..]) + incoming > maxSize
    ensures Evict(buffer, incoming, maxSize) == [] ||
            TotalSize(Evict(buffer, incoming, maxSize)) + incoming <= maxSize
  {
    if |buffer| > 0 && TotalSize(buffer) + incoming > maxSize {
      var tail := buffer[1..];
      EvictDropsShortestPrefix(tail, incoming, maxSize);
      var kept := Evict(tail, incoming, maxSize);
      assert tail[|tail| - |kept|..] == buffer[|buffer| - |kept|..];
      forall j | 0 <= j < |buffer| - |kept|
        ensures TotalSize(buffer[j..]) + incoming > maxSize
      {
        if j > 0 {
          assert buffer[j..] == tail[j - 1..];
        } else {
          assert buffer[0..] == buffer;
        }
      }
    }
  }

  /** When the new entry alone fits, the kept entries and the new entry fit together. */
  lemma EvictFits(buffer: seq<string>, incoming: nat, maxSize: int)
    requires incoming <= maxSize
    ensures TotalSize(Evict(buffer, incoming, maxSize)) + incoming <= maxSize
  {
    EvictDropsShortestPrefix(buffer, incoming, maxSize);
  }

  /** An entry larger than the maximum on its own empties the buffer. */
  lemma {:induction false} EvictOversized(buffer: seq<string>, incoming: nat, maxSize: int)
    requires incoming > maxSize
    ensures Evict(buffer, incoming, maxSize) == []
  {
    if |buffer| > 0 {
      EvictOversized(buffer[1..], incoming, maxSize);
    }
  }

  class CircularLogger {
    const maxSize: int
    /** Entries in arrival order, oldest first. */
    var buffer: seq<string>
    /** Running UTF-8 size of `buffer`. */
    var currentSize: int
    /** Every entry ever handed to the background file writer, in call order. */
    ghost var writeQueue: seq<string>

    ghost predicate Valid()
      reads this
    {
      currentSize == TotalSize(buffer)
    }

    constructor (maxSize: int := DefaultMaxSize)
      ensures Valid()
      ensures this.maxSize == maxSize
      ensures buffer == [] && currentSize == 0 && writeQueue == []
    {
      this.maxSize := maxSize;
      buffer := [];
      currentSize := 0;
      writeQueue := [];
    }

    /** Formats and stores one entry, evicting the oldest entries to make room. */
    method Log(timestamp: string, level: string, message: string)
      requires Valid()
      modifies this
      ensures Valid()
      ensures buffer == Evict(old(buffer), Utf8Size(FormatEntry(timestamp, level, message)), maxSize)
                        + [FormatEntry(timestamp, level, message)]
      ensures writeQueue == old(writeQueue) + [FormatEntry(timestamp, level, message)]
      ensures old(currentSize) + Utf8Size(FormatEntry(timestamp, level, message)) <= maxSize ==>
                buffer == old(buffer) + [FormatEntry(timestamp, level, message)]
      ensures Utf8Size(FormatEntry(timestamp, level, message)) <= maxSize ==> currentSize <= maxSize
      ensures Utf8Size(FormatEntry(timestamp, level, message)) > maxSize ==>
                buffer == [FormatEntry(timestamp, level, message)]
    {
      var entry := FormatEntry(timestamp, level, message);
      var entrySize := Utf8Size(entry);
      ghost var evicted := Evict(buffer, entrySize, maxSize);
      if currentSize + entrySize > maxSize {
        while |buffer| > 0 && currentSize + entrySize > maxSize
          invariant currentSize == TotalSize(buffer)
          invariant Evict(buffer, entrySize, maxSize) == evicted
          invariant writeQueue == old(writeQueue)
          decreases |buffer|
        {
          var removed := buffer[0];
          buffer := buffer[1..];
          currentSize := currentSize - Utf8Size(removed);
        }
      }
      assert buffer == evicted;
      TotalSizeAppend(buffer, entry);
      buffer := buffer + [entry];
      currentSize := currentSize + entrySize;
      writeQueue := writeQueue + [entry];
      if entrySize <= maxSize {
        EvictFits(old(buffer), entrySize, maxSize);
      } else {
        EvictOversized(old(buffer), entrySize, maxSize);
      }
    }

    method LogDebug(timestamp: string, message: string)
      requires Valid()
      modifies this
      ensures Valid()
      ensures buffer == Evict(old(buffer), Utf8Size(FormatEntry(timestamp, Debug, message)), maxSize)
                        + [FormatEntry(timestamp, Debug, message)]
      ensures writeQueue == old(writeQueue) + [FormatEntry(timestamp, Debug, message)]
    {
      Log(timestamp, Debug, message);
    }

    method LogInfo(timestamp: string, message: string)
      requires Valid()
      modifies this
      ensures Valid()
      ensures buffer == Evict(old(buffer), Utf8Size(FormatEntry(timestamp, Info, message)), maxSize)
                        + [FormatEntry(timestamp, Info, message)]
      ensures writeQueue == old(writeQueue) + [FormatEntry(timestamp, Info, message)]
    {
      Log(timestamp, Info, message);
    }

    method LogWarning(timestamp: string, message: string)
      requires Valid()
      modifies this
      ensures Valid()
      ensures buffer == Evict(old(buffer), Utf8Size(FormatEntry(timestamp, Warning, message)), maxSize)
                        + [FormatEntry(timestamp, Warning, message)]
      ensures writeQueue == old(writeQueue) + [FormatEntry(timestamp, Warning, message)]
    {
      Log(timestamp, Warning, message);
    }

    method LogError(timestamp: string, message: string)
      requires Valid()
      modifies this
      ensures Valid()
      ensures buffer == Evict(old(buffer), Utf8Size(FormatEntry(timestamp, Error, message)), maxSize)
                        + [FormatEntry(timestamp, Error, message)]
      ensures writeQueue == old(writeQueue) + [FormatEntry(timestamp, Error, message)]
    {
      Log(timestamp, Error, message);
    }

    /** The buffered entries joined in order; its UTF-8 size is `currentSize`. */
    method GetLogs() returns (logs: string)
      requires Valid()
      ensures logs == Join(buffer)
      ensures Utf8Size(logs) == currentSize
    {
      logs := Join(buffer);
      JoinSize(buffer);
    }

    method ClearLogs()
      modifies this
      ensures Valid()
      ensures buffer == [] && currentSize == 0
      ensures writeQueue == old(writeQueue)
    {
      buffer := [];
      currentSize := 0;
    }
  }
}
