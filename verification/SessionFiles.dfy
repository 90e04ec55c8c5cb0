/** Reading a session file and writing a session: decodeAll and Write of transcript/jsonl.go, for a session of the
    store's own agent. What a row means is the codec's, so it enters as functions; a decoder may look at every row
    before the one it decodes. */
module SessionFiles {
  import opened Options
  import opened Lines
  import opened AssignIds
  import opened WriteRows

  datatype HeaderAnswer = IsHeader | NotHeader | BadHeader

  datatype Decoded = Message(entry: Entry) | NoMessage | BadRow

  datatype Codec = Codec(
    valid: string -> bool,
    header: Option<(seq<string>, string) -> HeaderAnswer>,
    decode: (seq<string>, string) -> Decoded)

  function OpaqueRow(row: string): Entry {
    Entry("", "", false, None, Some(row), "")
  }

  /** Only the first well-formed row may be the header. */
  predicate NoneValidBefore(codec: Codec, rows: seq<string>, i: nat)
    requires i <= |rows|
  {
    forall j :: 0 <= j < i ==> !codec.valid(rows[j])
  }

  function RowEntry(codec: Codec, rows: seq<string>, i: nat): Option<Entry>
    requires i < |rows|
  {
    var row := rows[i];
    if !codec.valid(row) then Some(OpaqueRow(row))
    else
      var answer := if codec.header.Some? && NoneValidBefore(codec, rows, i) then codec.header.value(rows[..i], row)
                    else NotHeader;
      if answer.BadHeader? then None
      else if answer.IsHeader? then Some(OpaqueRow(row))
      else
        match codec.decode(rows[..i], row)
        case BadRow => None
        case NoMessage => Some(OpaqueRow(row))
        case Message(e) => Some(e.(raw := Some(row)))
  }

  function Entries(codec: Codec, rows: seq<string>, n: nat): Option<seq<Entry>>
    requires n <= |rows|
  {
    if n == 0 then Some([])
    else
      var before, e := Entries(codec, rows, n - 1), RowEntry(codec, rows, n - 1);
      if before.None? || e.None? then None else Some(before.value + [e.value])
  }

  /** decodeAll: a line at a time, skipping the empty ones and keeping every other as a row of its own. */
  method DecodeAll(codec: Codec, file: string) returns (es: Option<seq<Entry>>)
    ensures es == Entries(codec, Rows(file), |Rows(file)|)
  {
    var lines := Split(file);
    var out: seq<Entry> := [];
    var rows: seq<string> := [];
    var first := true;
    ghost var done: seq<string> := [];
    var i := 0;
    while i < |lines|
      invariant i == |done| <= |lines| && done <= lines
      invariant rows == TrimAll(done)
      invariant first == NoneValidBefore(codec, rows, |rows|)
      invariant Some(out) == Entries(codec, rows, |rows|)
    {
      var row := Trim(lines[i]);
      TrimAllSnoc(done, lines[i]);
      done := done + [lines[i]];
      i := i + 1;
      if |row| > 0 {
        var e: Option<Entry>;
        e, first := DecodeRow(codec, rows, row, first);
        OneMoreRow(codec, rows, row);
        rows := rows + [row];
        if e.None? {
          TrimAllIsAPrefix(done, lines);
          EntriesOfPrefix(codec, rows, Rows(file));
          return None;
        }
        out := out + [e.value];
      }
    }
    assert done == lines;
    es := Some(out);
  }

  lemma OneMoreRow(codec: Codec, rows: seq<string>, row: string)
    ensures var e := RowEntry(codec, rows + [row], |rows|);
            var before := Entries(codec, rows, |rows|);
            Entries(codec, rows + [row], |rows| + 1) ==
            if before.None? || e.None? then None else Some(before.value + [e.value])
  {
    EntriesLookBack(codec, rows, rows + [row], |rows|);
  }

  /** What a row means depends on the rows before it only. */
  lemma {:induction false} EntriesLookBack(codec: Codec, rows: seq<string>, all: seq<string>, n: nat)
    requires n <= |rows| && rows <= all
    ensures Entries(codec, rows, n) == Entries(codec, all, n)
  {
    if n > 0 {
      EntriesLookBack(codec, rows, all, n - 1);
      RowLooksBack(codec, rows, all, n - 1);
    }
  }

  lemma RowLooksBack(codec: Codec, rows: seq<string>, all: seq<string>, i: nat)
    requires i < |rows| && rows <= all
    ensures RowEntry(codec, rows, i) == RowEntry(codec, all, i)
  {
    assert rows[..i] == all[..i];
    assert NoneValidBefore(codec, rows, i) == NoneValidBefore(codec, all, i) by {
      assert forall j :: 0 <= j < i ==> rows[j] == all[j];
    }
  }

  lemma EntriesOfPrefix(codec: Codec, rows: seq<string>, all: seq<string>)
    requires rows <= all && Entries(codec, rows, |rows|).None?
    ensures Entries(codec, all, |all|).None?
  {
    EntriesLookBack(codec, rows, all, |rows|);
    EntriesFail(codec, all, |rows|, |all|);
  }

  /** One turn of the loop, for a row that is not empty. */
  method DecodeRow(codec: Codec, rows: seq<string>, row: string, first: bool) returns (e: Option<Entry>, stillFirst: bool)
    requires first == NoneValidBefore(codec, rows, |rows|)
    ensures e == RowEntry(codec, rows + [row], |rows|)
    ensures stillFirst == NoneValidBefore(codec, rows + [row], |rows| + 1)
  {
    assert (rows + [row])[..|rows|] == rows;
    if !codec.valid(row) {
      return Some(OpaqueRow(row)), first;
    }
    assert codec.valid((rows + [row])[|rows|]);
    if first && codec.header.Some? {
      var answer := codec.header.value(rows, row);
      if answer.BadHeader? {
        return None, false;
      }
      if answer.IsHeader? {
        return Some(OpaqueRow(row)), false;
      }
    }
    var d := codec.decode(rows, row);
    match d {
      case BadRow => e := None;
      case NoMessage => e := Some(OpaqueRow(row));
      case Message(entry) => e := Some(entry.(raw := Some(row)));
    }
    stillFirst := false;
  }

  lemma TrimAllSnoc(lines: seq<string>, line: string)
    ensures TrimAll(lines + [line]) == TrimAll(lines) + if Trim(line) == "" then [] else [Trim(line)]
  {
    assert (lines + [line])[..|lines|] == lines;
  }

  lemma TrimAllIsAPrefix(a: seq<string>, lines: seq<string>)
    requires a <= lines
    ensures TrimAll(a) <= TrimAll(lines)
  {
    var b := lines[|a|..];
    assert lines == a + b;
    TrimAllAppend(a, b);
  }

  lemma {:induction false} EntriesFail(codec: Codec, rows: seq<string>, i: nat, n: nat)
    requires i <= n <= |rows| && Entries(codec, rows, i).None?
    ensures Entries(codec, rows, n).None?
  {
    if i < n {
      EntriesFail(codec, rows, i, n - 1);
    }
  }

  /** The file Write makes of a session's entries, with the rows of a header when the session has none of its own. */
  function FileOf(c: Config, encode: Encoder, header: seq<string>, es: seq<Entry>): Option<string> {
    var foreign := es == [] || es[0].raw.None?;
    var rows := Written(encode, Assigned(c, es), |es|);
    if rows.None? then None else Some(Join((if foreign then header else []) + rows.value))
  }

  method Write(c: Config, encode: Encoder, header: seq<string>, a: array<Entry>) returns (file: Option<string>)
    requires forall k: nat :: c.mint(k) != ""
    requires LinksEnd(encode, Assigned(c, a[..]))
    modifies a
    ensures file == FileOf(c, encode, header, old(a[..]))
    ensures a[..] == Assigned(c, old(a[..]))
  {
    var foreign := a.Length == 0 || a[0].raw.None?;
    AssignInPlace(c, a);
    var out := "";
    if foreign {
      out := JoinRows(header);
    }
    var rows := EncodeRows(encode, a[..]);
    if rows.None? {
      return None;
    }
    JoinAppend(if foreign then header else [], rows.value);
    var body := JoinRows(rows.value);
    file := Some(out + body);
  }

  method JoinRows(rows: seq<string>) returns (out: string)
    ensures out == Join(rows)
  {
    out := "";
    var i := 0;
    while i < |rows|
      invariant 0 <= i <= |rows| && out == Join(rows[..i])
    {
      assert rows[..i + 1][..i] == rows[..i];
      out := out + rows[i] + "\n";
      i := i + 1;
    }
    assert rows[..i] == rows;
  }

  /** Every row of the file is an entry of its own, in order, with exactly that row as its Raw. */
  lemma {:induction false} EntriesKeepRows(codec: Codec, rows: seq<string>, n: nat)
    requires n <= |rows| && Entries(codec, rows, n).Some?
    ensures |Entries(codec, rows, n).value| == n
    ensures forall i :: 0 <= i < n ==> Entries(codec, rows, n).value[i].raw == Some(rows[i])
  {
    if n > 0 {
      EntriesKeepRows(codec, rows, n - 1);
    }
  }

  lemma {:induction false} WrittenRaw(encode: Encoder, es: seq<Entry>, rows: seq<string>, n: nat)
    requires n <= |rows| <= |es|
    requires forall i :: 0 <= i < |rows| ==> es[i].raw == Some(rows[i]) && rows[i] != ""
    ensures Written(encode, es, n) == Some(rows[..n])
  {
    if n > 0 {
      WrittenRaw(encode, es, rows, n - 1);
      assert rows[..n] == rows[..n - 1] + [rows[n - 1]];
    }
  }

  lemma {:induction false} WrittenExtends(encode: Encoder, es: seq<Entry>, i: nat, n: nat)
    requires i <= n <= |es| && Written(encode, es, n).Some?
    ensures Written(encode, es, i).Some? && Written(encode, es, i).value <= Written(encode, es, n).value
  {
    if i < n {
      WrittenExtends(encode, es, i, n - 1);
    }
  }

  lemma RowsAreWritten(codec: Codec, encode: Encoder, file: string, es: seq<Entry>, all: seq<Entry>)
    requires Entries(codec, Rows(file), |Rows(file)|) == Some(es)
    requires es <= all
    ensures Written(encode, all, |es|) == Some(Rows(file))
  {
    var rows := Rows(file);
    RowsAreRows(file);
    EntriesKeepRows(codec, rows, |rows|);
    forall i | 0 <= i < |rows| ensures all[i].raw == Some(rows[i]) && rows[i] != "" {
      assert IsRow(rows[i]) && all[i] == es[i];
    }
    WrittenRaw(encode, all, rows, |rows|);
    assert rows[..|rows|] == rows;
  }

  lemma AssignKeepsRead(c: Config, es: seq<Entry>, more: seq<Entry>)
    requires forall i :: 0 <= i < |es| ==> es[i].raw.Some?
    ensures es <= Assigned(c, es + more)
  {
    forall i | 0 <= i < |es| ensures Assigned(c, es + more)[i] == es[i] {
      assert (es + more)[i] == es[i];
    }
  }

  /** A session whose first entry was read gets no new header. */
  lemma FileOfOwn(c: Config, encode: Encoder, header: seq<string>, es: seq<Entry>)
    requires es != [] && es[0].raw.Some?
    ensures var rows := Written(encode, Assigned(c, es), |es|);
            FileOf(c, encode, header, es) == if rows.None? then None else Some(Join(rows.value))
  {
    var rows := Written(encode, Assigned(c, es), |es|);
    if rows.Some? {
      assert [] + rows.value == rows.value;
    }
  }

  lemma JoinGrows(a: seq<string>, b: seq<string>)
    requires a <= b
    ensures Join(a) <= Join(b)
  {
    assert b == a + b[|a|..];
    JoinAppend(a, b[|a|..]);
  }

  /** Reading a file and writing what was read, with entries appended, keeps the file's rows in order at the front; with
      nothing appended it gives those rows and nothing else. Rows the codec could not make sense of, broken ones and
      the header are no exception, whatever the encoder, the id scheme and the header writer do. */
  lemma RewriteKeepsRows(
      codec: Codec, c: Config, encode: Encoder, header: seq<string>, file: string, es: seq<Entry>, more: seq<Entry>,
      written: string)
    requires Entries(codec, Rows(file), |Rows(file)|) == Some(es) && es != []
    requires FileOf(c, encode, header, es + more) == Some(written)
    ensures Join(Rows(file)) <= written
    ensures more == [] ==> written == Join(Rows(file))
  {
    var rows := Rows(file);
    EntriesKeepRows(codec, rows, |rows|);
    assert (es + more)[0] == es[0];
    FileOfOwn(c, encode, header, es + more);
    AssignKeepsRead(c, es, more);
    var all := Assigned(c, es + more);
    RowsComeFirst(codec, encode, file, es, all);
    JoinGrows(rows, Written(encode, all, |all|).value);
  }

  lemma RowsComeFirst(codec: Codec, encode: Encoder, file: string, es: seq<Entry>, all: seq<Entry>)
    requires Entries(codec, Rows(file), |Rows(file)|) == Some(es) && es <= all
    ensures var out := Written(encode, all, |all|);
            out.Some? ==> Rows(file) <= out.value && (|all| == |es| ==> out.value == Rows(file))
  {
    RowsAreWritten(codec, encode, file, es, all);
    if Written(encode, all, |all|).Some? {
      WrittenExtends(encode, all, |es|, |all|);
    }
  }

  /** A session that was read can always be written back unchanged. */
  lemma RewriteSucceeds(codec: Codec, c: Config, encode: Encoder, header: seq<string>, file: string, es: seq<Entry>)
    requires Entries(codec, Rows(file), |Rows(file)|) == Some(es) && es != []
    ensures FileOf(c, encode, header, es) == Some(Join(Rows(file)))
  {
    var all := Assigned(c, es);
    EntriesKeepRows(codec, Rows(file), |Rows(file)|);
    assert es == all;
    RowsAreWritten(codec, encode, file, es, all);
    FileOfOwn(c, encode, header, es);
  }

  /** And the write comes to its end: no row that was read is left out. */
  lemma ReadLinksEnd(codec: Codec, c: Config, encode: Encoder, file: string, es: seq<Entry>)
    requires Entries(codec, Rows(file), |Rows(file)|) == Some(es)
    ensures LinksEnd(encode, Assigned(c, es))
  {
    var all := Assigned(c, es);
    EntriesKeepRows(codec, Rows(file), |Rows(file)|);
    forall i | 0 <= i < |all| ensures Reached(all, Kept(encode, all, i), all[i].parent, i).Some? {
      assert forall j :: 0 <= j < i ==> all[j].raw.Some?;
      assert Latest(all, Kept(encode, all, i), all[i].parent, i) < 0;
    }
  }

  /** A session with unique ids whose links point back, new entries included, is written to the end for any encoder: each
      entry is passed with its nearest surviving ancestor, and with no parent that gets no row. */
  lemma BackwardSessionIsWritten(c: Config, encode: Encoder, es: seq<Entry>, i: nat) returns (k: nat)
    requires UniqueIds(es) && FreshIds(c, es) && Backward(es) && LeafComesFirst(c, es) && i < |es|
    ensures var out := Assigned(c, es);
            var kept, all := Kept(encode, out, i), Kept(encode, out, |out|);
            && LinksEnd(encode, out)
            && NearestSurvivor(out, kept, out[i].parent, i, k, Passed(out, kept, i).parent)
            && forall j :: 0 <= j < |out| && Dropped(out, all, j) ==> out[j].id != Passed(out, kept, i).parent
  {
    var out := Assigned(c, es);
    StaysBackward(c, es);
    BackwardPointsBack(out);
    BackwardLinksEnd(encode, out);
    EveryEntryNamed(c, es, i);
    BackwardReaches(out, Kept(encode, out, i), out[i].parent, i);
    k := PassedWithNearestSurvivor(encode, out, i);
    forall j | 0 <= j < |out| && Dropped(out, Kept(encode, out, |out|), j)
      ensures out[j].id != Passed(out, Kept(encode, out, i), i).parent {
      ParentSurvives(encode, out, i, j);
    }
  }

  // A session that did not come from a file.

  function CountTrue(kept: seq<bool>): nat {
    if kept == [] then 0 else CountTrue(kept[..|kept| - 1]) + if kept[|kept| - 1] then 1 else 0
  }

  lemma {:induction false} OneRowEach(encode: Encoder, es: seq<Entry>, n: nat)
    requires n <= |es| && Written(encode, es, n).Some?
    ensures |Written(encode, es, n).value| == CountTrue(Kept(encode, es, n))
  {
    if n > 0 {
      OneRowEach(encode, es, n - 1);
      assert Kept(encode, es, n)[..n - 1] == Kept(encode, es, n - 1);
    }
  }

  /** The row of an entry: the one it was read from, or what the encoder makes of it. */
  predicate IsRowOf(encode: Encoder, es: seq<Entry>, i: nat, row: string)
    requires i < |es|
  {
    && row != ""
    && if es[i].raw.Some? then row == es[i].raw.value else encode(Passed(es, Kept(encode, es, i), i)) == Row(row)
  }

  lemma LastRow(encode: Encoder, es: seq<Entry>, n: nat)
    requires 0 < n <= |es| && Written(encode, es, n).Some? && Kept(encode, es, n)[n - 1]
    ensures var rows := Written(encode, es, n).value; |rows| > 0 && IsRowOf(encode, es, n - 1, rows[|rows| - 1])
  {
  }

  /** The rows written are those of the entries that get one, each in its turn. */
  lemma {:induction false} WrittenInOrder(encode: Encoder, es: seq<Entry>, n: nat, i: nat)
    requires i < n <= |es| && Written(encode, es, n).Some?
    ensures var rows, kept := Written(encode, es, n).value, Kept(encode, es, n);
            && |rows| == CountTrue(kept)
            && (kept[i] ==> CountTrue(kept[..i]) < |rows| && IsRowOf(encode, es, i, rows[CountTrue(kept[..i])]))
  {
    var before, kept := Kept(encode, es, n - 1), Kept(encode, es, n);
    assert kept[..n - 1] == before;
    OneRowEach(encode, es, n);
    OneRowEach(encode, es, n - 1);
    if i < n - 1 {
      WrittenInOrder(encode, es, n - 1, i);
      assert kept[..i] == before[..i];
    } else if kept[i] {
      LastRow(encode, es, n);
    }
  }

  predicate IsForeign(es: seq<Entry>) {
    es == [] || es[0].raw.None?
  }

  /** The file of a new session begins with the header, whatever the entries give; after it come the rows of the entries
      and nothing else. */
  lemma NewFileStartsWithHeader(c: Config, encode: Encoder, header: seq<string>, es: seq<Entry>, file: string)
    requires IsForeign(es) && FileOf(c, encode, header, es) == Some(file)
    ensures Written(encode, Assigned(c, es), |es|).Some?
    ensures Join(header) <= file && file == Join(header) + Join(Written(encode, Assigned(c, es), |es|).value)
  {
    JoinAppend(header, Written(encode, Assigned(c, es), |es|).value);
  }

  /** Read back, it gives the header's rows first and then one row for each entry that got one, in order. */
  lemma NewFileIsReadBack(
      codec: Codec, c: Config, encode: Encoder, header: seq<string>, es: seq<Entry>, file: string, back: seq<Entry>)
    requires IsForeign(es) && FileOf(c, encode, header, es) == Some(file)
    requires forall i :: 0 <= i < |header| ==> IsRow(header[i])
    requires var rows := Written(encode, Assigned(c, es), |es|);
             rows.Some? ==> forall i :: 0 <= i < |rows.value| ==> IsRow(rows.value[i])
    requires Entries(codec, Rows(file), |Rows(file)|) == Some(back)
    ensures Written(encode, Assigned(c, es), |es|).Some?
    ensures var rows := Written(encode, Assigned(c, es), |es|).value;
            && Rows(file) == header + rows && |back| == |header| + |rows|
            && (forall i :: 0 <= i < |header| ==> back[i].raw == Some(header[i]))
            && (forall i :: 0 <= i < |rows| ==> back[|header| + i].raw == Some(rows[i]))
  {
    var rows := Written(encode, Assigned(c, es), |es|).value;
    var all := header + rows;
    NewFileStartsWithHeader(c, encode, header, es, file);
    JoinAppend(header, rows);
    RowsOfJoin(all);
    EntriesKeepRows(codec, all, |all|);
  }

  /** Reading, writing and reading again gives the entries first read, and the file is then a fixed point. */
  lemma ReadWriteRead(
      codec: Codec, c: Config, encode: Encoder, header: seq<string>, file: string, es: seq<Entry>, written: string)
    requires Entries(codec, Rows(file), |Rows(file)|) == Some(es) && es != []
    requires FileOf(c, encode, header, es) == Some(written)
    ensures Entries(codec, Rows(written), |Rows(written)|) == Some(es)
    ensures Join(Rows(written)) == written
  {
    RewriteSucceeds(codec, c, encode, header, file, es);
    NormalisedFileIsFixed(file);
  }
}
