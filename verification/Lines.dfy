/** Splitting a session file into rows and back: the byte level of transcript/jsonl.go. */
module Lines {

  /** The white space strings.TrimSpace and bytes.TrimSpace take off. */
  predicate IsSpace(c: char) {
    || c in ['\t', '\n', '\r', ' ']
    || c as int in {0x0b, 0x0c, 0x85, 0xa0, 0x1680, 0x2028, 0x2029, 0x202f, 0x205f, 0x3000}
    || 0x2000 <= c as int <= 0x200a
  }

  function TrimLeft(s: string): string {
    if s != "" && IsSpace(s[0]) then TrimLeft(s[1..]) else s
  }

  function TrimRight(s: string): string {
    if s != "" && IsSpace(s[|s| - 1]) then TrimRight(s[..|s| - 1]) else s
  }

  function Trim(s: string): string {
    TrimRight(TrimLeft(s))
  }

  predicate IsTrimmed(s: string) {
    s == "" || (!IsSpace(s[0]) && !IsSpace(s[|s| - 1]))
  }

  lemma {:induction false} TrimLeftTrims(s: string)
    ensures TrimLeft(s) == "" || !IsSpace(TrimLeft(s)[0])
    ensures forall c :: c in TrimLeft(s) ==> c in s
  {
    if s != "" && IsSpace(s[0]) {
      TrimLeftTrims(s[1..]);
    }
  }

  lemma {:induction false} TrimRightTrims(s: string)
    ensures TrimRight(s) == "" || !IsSpace(TrimRight(s)[|TrimRight(s)| - 1])
    ensures TrimRight(s) <= s
  {
    if s != "" && IsSpace(s[|s| - 1]) {
      TrimRightTrims(s[..|s| - 1]);
    }
  }

  /** Trimming leaves no white space at either end, adds nothing, and leaves a trimmed string alone. */
  lemma TrimTrims(s: string)
    ensures IsTrimmed(Trim(s))
    ensures forall c :: c in Trim(s) ==> c in s
    ensures IsTrimmed(s) ==> Trim(s) == s
  {
    TrimLeftTrims(s);
    TrimRightTrims(TrimLeft(s));
  }

  /** The lines of a file, the text after the last newline included. */
  function Split(file: string): (lines: seq<string>)
    ensures |lines| > 0
  {
    if file == "" then [""]
    else
      var rest := Split(file[1..]);
      if file[0] == '\n' then [""] + rest else [[file[0]] + rest[0]] + rest[1..]
  }

  lemma {:induction false} SplitHasNoNewline(file: string, i: nat)
    requires i < |Split(file)|
    ensures '\n' !in Split(file)[i]
  {
    if file != "" {
      var rest := Split(file[1..]);
      if file[0] == '\n' {
        if i > 0 { SplitHasNoNewline(file[1..], i - 1); }
      } else {
        SplitHasNoNewline(file[1..], i);
      }
    }
  }

  lemma {:induction false} SplitFirstLine(line: string, rest: string)
    requires '\n' !in line
    ensures Split(line + "\n" + rest) == [line] + Split(rest)
  {
    var file := line + "\n" + rest;
    if line == "" {
      assert file[1..] == rest;
    } else {
      assert file[1..] == line[1..] + "\n" + rest;
      SplitFirstLine(line[1..], rest);
      assert file[0] == line[0] && line[0] != '\n';
      assert [line[0]] + line[1..] == line;
    }
  }

  /** The trimmed lines that are not empty. */
  function TrimAll(lines: seq<string>): seq<string> {
    if lines == [] then []
    else TrimAll(lines[..|lines| - 1]) + if Trim(lines[|lines| - 1]) == "" then [] else [Trim(lines[|lines| - 1])]
  }

  function Rows(file: string): seq<string> {
    TrimAll(Split(file))
  }

  /** Rows as a file: each ended by a newline. */
  function Join(rows: seq<string>): string {
    if rows == [] then "" else Join(rows[..|rows| - 1]) + rows[|rows| - 1] + "\n"
  }

  predicate IsRow(row: string) {
    row != "" && IsTrimmed(row) && '\n' !in row
  }

  lemma {:induction false} TrimAllGivesRows(lines: seq<string>, i: nat)
    requires forall j :: 0 <= j < |lines| ==> '\n' !in lines[j]
    requires i < |TrimAll(lines)|
    ensures IsRow(TrimAll(lines)[i])
  {
    var n := |lines| - 1;
    TrimTrims(lines[n]);
    if i < |TrimAll(lines[..n])| {
      TrimAllGivesRows(lines[..n], i);
    }
  }

  lemma RowsAreRows(file: string)
    ensures forall i :: 0 <= i < |Rows(file)| ==> IsRow(Rows(file)[i])
  {
    forall i | 0 <= i < |Split(file)| ensures '\n' !in Split(file)[i] {
      SplitHasNoNewline(file, i);
    }
    forall i | 0 <= i < |Rows(file)| ensures IsRow(Rows(file)[i]) {
      TrimAllGivesRows(Split(file), i);
    }
  }

  lemma {:induction false} TrimAllAppend(a: seq<string>, b: seq<string>)
    ensures TrimAll(a + b) == TrimAll(a) + TrimAll(b)
  {
    if b == [] {
      assert a + b == a;
    } else {
      var n := |b| - 1;
      assert (a + b)[..|a + b| - 1] == a + b[..n];
      TrimAllAppend(a, b[..n]);
    }
  }

  lemma {:induction false} JoinAppend(a: seq<string>, b: seq<string>)
    ensures Join(a + b) == Join(a) + Join(b)
  {
    if b == [] {
      assert a + b == a;
    } else {
      var n := |b| - 1;
      assert (a + b)[..|a + b| - 1] == a + b[..n];
      JoinAppend(a, b[..n]);
    }
  }

  /** Writing rows and splitting the file again gives the same rows. */
  lemma {:induction false} RowsOfJoin(rows: seq<string>)
    requires forall i :: 0 <= i < |rows| ==> IsRow(rows[i])
    ensures Rows(Join(rows)) == rows
    decreases |rows|
  {
    if rows == [] {
      assert Split("") == [""];
      assert Trim("") == "";
      assert TrimAll([""]) == TrimAll([]) + [];
    } else {
      var first, rest := rows[0], rows[1..];
      assert rows == [first] + rest;
      JoinAppend([first], rest);
      assert Join([first]) == Join([]) + first + "\n" == first + "\n";
      SplitFirstLine(first, Join(rest));
      TrimAllAppend([first], Split(Join(rest)));
      TrimTrims(first);
      assert TrimAll([first]) == TrimAll([]) + [first];
      RowsOfJoin(rest);
    }
  }

  /** Normalising a file is idempotent, so a file of trimmed lines each ended by a newline is left as it is. */
  lemma NormalisedFileIsFixed(file: string)
    ensures Rows(Join(Rows(file))) == Rows(file)
    ensures Join(Rows(Join(Rows(file)))) == Join(Rows(file))
  {
    RowsAreRows(file);
    RowsOfJoin(Rows(file));
  }
}
