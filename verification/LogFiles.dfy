/** The two files of a linestack as bytes: the printed lines one after the other, and an index
    of fixed-width records (offset of the line, its time, the last line with a snapshot). */
module LogFiles {
  import opened Base
  import opened Line

  // ------------------------------------------------------------------------ numbers

  type Byte = b: nat | b < 256

  function Power256(k: nat): (p: nat)
    ensures p >= 1
  {
    if k == 0 then 1 else 256 * Power256(k - 1)
  }

  /** The low `k` bytes of a number, least significant first. */
  function ToBytes(n: nat, k: nat): (r: seq<Byte>)
    ensures |r| == k
  {
    if k == 0 then [] else [n % 256] + ToBytes(n / 256, k - 1)
  }

  function FromBytes(r: seq<Byte>): (n: nat) {
    if r == [] then 0 else r[0] + 256 * FromBytes(r[1..])
  }

  lemma {:induction false} FromToBytes(n: nat, k: nat)
    requires n < Power256(k)
    ensures FromBytes(ToBytes(n, k)) == n
  {
    if k > 0 {
      FromToBytes(n / 256, k - 1);
      assert ToBytes(n, k)[1..] == ToBytes(n / 256, k - 1);
    }
  }

  const TWO63: nat := 0x8000_0000_0000_0000

  lemma EightBytes()
    ensures Power256(8) == 2 * TWO63
  {
    assert Power256(4) == 0x1_0000_0000;
    assert Power256(8) == 256 * (256 * (256 * (256 * Power256(4))));
  }

  predicate IsTime(t: int) { 0 - TWO63 <= t < TWO63 }

  /** A guint64 and a time_t, eight bytes each. */
  function U64(n: nat): (r: seq<Byte>) { ToBytes(n, 8) }

  function S64(t: int): (r: seq<Byte>)
    requires IsTime(t)
  {
    ToBytes(if t < 0 then t + 2 * TWO63 else t, 8)
  }

  function ReadU64(r: seq<Byte>): (n: nat) { FromBytes(r) }

  function ReadS64(r: seq<Byte>): (t: int) {
    var n := FromBytes(r); if n >= TWO63 then n - 2 * TWO63 else n
  }

  lemma U64RoundTrip(n: nat, t: int)
    requires n < 2 * TWO63 && IsTime(t)
    ensures |U64(n)| == |S64(t)| == 8 && ReadU64(U64(n)) == n && ReadS64(S64(t)) == t
  {
    EightBytes();
    FromToBytes(n, 8);
    FromToBytes(if t < 0 then t + 2 * TWO63 else t, 8);
  }

  // -------------------------------------------------------------------------- files

  /** A file and the position of the next read or write. */
  datatype File<T> = File(data: seq<T>, pos: nat)

  /** g_io_channel_write_chars. */
  function Write<T>(f: File<T>, xs: seq<T>): (r: File<T>)
    requires f.pos <= |f.data|
    ensures f.pos == |f.data| ==> r.data == f.data + xs && r.pos == |r.data|
  {
    var after := f.pos + |xs|;
    File(f.data[..f.pos] + xs + (if after < |f.data| then f.data[after..] else []), after)
  }

  /** g_io_channel_read_chars: None at the end of the file. */
  function ReadChunk<T>(f: File<T>, n: nat): (r: Option<seq<T>>) {
    if f.pos + n <= |f.data| then Some(f.data[f.pos..f.pos + n]) else None
  }

  /** g_io_channel_read_line: the line with its terminator. */
  function ReadRaw(f: File<char>): (r: Option<string>) {
    if f.pos >= |f.data| then None
    else
      var s := f.data[f.pos..];
      Some(s[..LineEnd(s)])
  }

  function AtEnd<T>(f: File<T>): (r: File<T>) { f.(pos := |f.data|) }

  // ---------------------------------------------------------------------------- log

  /** A stored line and the time it was stored at. */
  datatype Entry = Entry(line: Line, time: int)

  const INTERVAL := 1000

  /** The snapshot that record `i` names. */
  function SnapshotOf(i: nat): (k: nat)
    ensures k <= i < k + INTERVAL && k % INTERVAL == 0
  {
    INTERVAL * (i / INTERVAL)
  }

  /** The line file. */
  function LinesText(log: seq<Entry>): (s: string) {
    if log == [] then "" else LinesText(log[..|log| - 1]) + PrintNl(log[|log| - 1].line)
  }

  function Offset(log: seq<Entry>, i: nat): (n: nat)
    requires i <= |log|
  {
    |LinesText(log[..i])|
  }

  const RECORD := 24

  function Record(offset: nat, time: int, state: nat): (r: seq<Byte>)
    requires IsTime(time)
    ensures |r| == RECORD
  {
    U64(offset) + S64(time) + U64(state)
  }

  predicate Times(log: seq<Entry>) { forall i :: 0 <= i < |log| ==> IsTime(log[i].time) }

  /** The index file. */
  function IndexBytes(log: seq<Entry>): (r: seq<Byte>)
    requires Times(log)
    ensures |r| == RECORD * |log|
  {
    if log == [] then []
    else
      var n := |log| - 1;
      IndexBytes(log[..n]) + Record(|LinesText(log[..n])|, log[n].time, SnapshotOf(n))
  }

  lemma LogSnoc(log: seq<Entry>, e: Entry)
    requires Times(log) && IsTime(e.time)
    ensures LinesText(log + [e]) == LinesText(log) + PrintNl(e.line)
    ensures Times(log + [e])
    ensures IndexBytes(log + [e]) == IndexBytes(log) + Record(|LinesText(log)|, e.time, SnapshotOf(|log|))
  {
    assert (log + [e])[..|log|] == log;
  }

  lemma {:induction false} RecordIs(log: seq<Entry>, i: nat)
    requires Times(log) && i < |log|
    ensures IndexBytes(log)[RECORD * i..RECORD * i + RECORD] == Record(Offset(log, i), log[i].time, SnapshotOf(i))
  {
    hide LinesText, Record, SnapshotOf;
    var n := |log| - 1;
    var last := Record(|LinesText(log[..n])|, log[n].time, SnapshotOf(n));
    if i < n {
      RecordIs(log[..n], i);
      assert log[..n][..i] == log[..i];
      SliceOfFirst(IndexBytes(log[..n]), last, RECORD * i, RECORD * i + RECORD);
    } else {
      SliceOfSecond(IndexBytes(log[..n]), last);
    }
  }

  /** Record `i` holds the summed length of the lines before it, the time and the snapshot. */
  lemma RecordAt(log: seq<Entry>, i: nat)
    requires Times(log) && i < |log|
    ensures IndexBytes(log)[24 * i..24 * i + 24] == Record(Offset(log, i), log[i].time, 1000 * (i / 1000))
  {
    RecordIs(log, i);
    hide IndexBytes, Record, Offset, Times;
  }

  lemma SliceOfFirst<T>(a: seq<T>, b: seq<T>, i: nat, j: nat)
    requires i <= j <= |a|
    ensures (a + b)[i..j] == a[i..j] && (a + b)[i..] == a[i..] + b
  {}

  lemma SliceOfSecond<T>(a: seq<T>, b: seq<T>)
    ensures (a + b)[|a|..|a| + |b|] == b && (a + b)[|a|..] == b
  {}

  /** The line file from the `i`-th offset on starts with line `i`. */
  lemma {:induction false} TextAt(log: seq<Entry>, i: nat) returns (rest: string)
    requires i < |log|
    ensures Offset(log, i) <= |LinesText(log)|
    ensures LinesText(log)[Offset(log, i)..] == PrintNl(log[i].line) + rest
  {
    hide PrintNl;
    var n := |log| - 1;
    var last := PrintNl(log[n].line);
    if i < n {
      var r := TextAt(log[..n], i);
      assert log[..n][..i] == log[..i];
      rest := r + last;
      SliceOfFirst(LinesText(log[..n]), last, Offset(log, i), Offset(log, i));
      assert PrintNl(log[i].line) + r + last == PrintNl(log[i].line) + rest;
    } else {
      rest := "";
      SliceOfSecond(LinesText(log[..n]), last);
      assert last + rest == last;
    }
  }

  // -------------------------------------------------------------------- reading back

  /** A line that its stored text determines. */
  predicate Storable(l: Line) { WellFormed(l) && (l.origin.Some? ==> NoBreak(l.origin.value)) }

  /** The line as the parser gives it back: the flag says whether a colon was printed. */
  function Reread(l: Line): (r: Line)
    requires |l.args| >= 1
  {
    l.(colon := ColonFlag(PrintsColon(l)))
  }

  lemma PrintHasNoBreak(l: Line)
    requires Storable(l)
    ensures NoBreak(Print(l))
  {
    AllArgsNoBreak(l.args, PrintsColon(l));
    PrintArgsHasNoBreak(l.args, PrintsColon(l));
  }

  /** A text without line breaks, written with CR LF, is read back as one line. */
  lemma ReadRawOf(f: File<char>, t: string, rest: string)
    requires NoBreak(t) && f.pos <= |f.data| && f.data[f.pos..] == t + "\r\n" + rest
    ensures ReadRaw(f) == Some(t + "\r\n")
  {
    var s := f.data[f.pos..];
    assert s == t + ("\r\n" + rest);
    CutAtTail(t, "\r\n" + rest);
    assert s[|t|] == '\r' && s[|t| + 1] == '\n';
    assert s[..|t| + 2] == t + "\r\n";
  }

  /** Reading a line at its offset and parsing it gives the stored line. */
  lemma ReadBack(f: File<char>, l: Line, rest: string)
    requires Storable(l) && f.pos <= |f.data| && f.data[f.pos..] == PrintNl(l) + rest
    ensures ReadRaw(f) == Some(PrintNl(l)) && Parse(PrintNl(l)) == Some(Reread(l))
  {
    PrintHasNoBreak(l);
    ReadRawOf(f, Print(l), rest);
    hide ReadRaw, Print, Parse;
    ParseOfPrint(l);
  }
}
