/** The report path file: lines "export VAR=path", updated by addPathToFile (pkg/reporter/reporter.go). */
module Reporter {
  import opened Text

  predicate NoNewline(s: string) {
    '\n' !in s
  }

  /** strings.Split(s, "\n") */
  function Split(s: string): (lines: seq<string>)
    ensures |lines| > 0 && forall i :: 0 <= i < |lines| ==> NoNewline(lines[i])
  {
    if s == "" then [""]
    else
      var rest := Split(s[1..]);
      if s[0] == '\n' then [""] + rest else [[s[0]] + rest[0]] + rest[1..]
  }

  /** strings.Join(lines, "\n") */
  function Join(lines: seq<string>): string {
    if lines == [] then ""
    else if |lines| == 1 then lines[0]
    else lines[0] + "\n" + Join(lines[1..])
  }

  lemma {:induction false} SplitLine(line: string)
    requires NoNewline(line)
    ensures Split(line) == [line]
  {
    if line == "" {
    } else {
      assert line[0] in line && line == [line[0]] + line[1..];
      SplitLine(line[1..]);
      assert Split(line[1..])[1..] == [];
    }
  }

  lemma {:induction false} SplitFirst(line: string, rest: string)
    requires NoNewline(line)
    ensures Split(line + "\n" + rest) == [line] + Split(rest)
  {
    var s := line + "\n" + rest;
    if line == "" {
      assert s[1..] == rest;
    } else {
      assert line[0] in line && line == [line[0]] + line[1..] && s[0] == line[0];
      SplitFirst(line[1..], rest);
      assert s[1..] == line[1..] + "\n" + rest;
      assert Split(s[1..])[1..] == Split(rest);
    }
  }

  lemma {:induction false} SplitJoin(lines: seq<string>)
    requires |lines| > 0 && forall i :: 0 <= i < |lines| ==> NoNewline(lines[i])
    ensures Split(Join(lines)) == lines
  {
    if |lines| == 1 {
      SplitLine(lines[0]);
    } else {
      SplitJoin(lines[1..]);
      SplitFirst(lines[0], Join(lines[1..]));
    }
  }

  lemma {:induction false} JoinSplit(s: string)
    ensures Join(Split(s)) == s
  {
    if s == "" {
    } else {
      JoinSplit(s[1..]);
      var rest := Split(s[1..]);
      if s[0] == '\n' {
        assert Split(s)[1..] == rest;
        assert s == "\n" + s[1..];
      } else {
        assert Split(s)[1..] == rest[1..];
        assert s == [s[0]] + s[1..];
      }
    }
  }

  lemma {:induction false} JoinSnoc(lines: seq<string>, line: string)
    requires lines != []
    ensures Join(lines + [line]) == Join(lines) + "\n" + line
  {
    var all := lines + [line];
    assert all[1..] == lines[1..] + [line] && all[0] == lines[0];
    if |lines| > 1 {
      JoinSnoc(lines[1..], line);
      assert lines[0] + "\n" + (Join(lines[1..]) + "\n" + line) == (lines[0] + "\n" + Join(lines[1..])) + "\n" + line;
    } else {
      assert all[1..] == [line];
    }
  }

  function Marker(v: string): string {
    "export " + v + "="
  }

  function Line(v: string, p: string): string {
    Marker(v) + p
  }

  predicate Binds(line: string, v: string) {
    Contains(line, Marker(v))
  }

  lemma LineBinds(v: string, p: string)
    ensures Binds(Line(v, p), v)
  {
    assert Line(v, p)[..|Marker(v)|] == Marker(v);
  }

  predicate Found(lines: seq<string>, v: string) {
    exists i :: 0 <= i < |lines| && Binds(lines[i], v)
  }

  function Replace(lines: seq<string>, v: string, p: string): (r: seq<string>)
    ensures |r| == |lines|
    ensures forall i :: 0 <= i < |lines| ==> r[i] == if Binds(lines[i], v) then Line(v, p) else lines[i]
  {
    if lines == [] then []
    else [if Binds(lines[0], v) then Line(v, p) else lines[0]] + Replace(lines[1..], v, p)
  }

  function Upsert(lines: seq<string>, v: string, p: string): seq<string> {
    Replace(lines, v, p) + if Found(lines, v) then [] else [Line(v, p)]
  }

  /** The content of the file after addPathToFile. */
  function Updated(content: string, v: string, p: string): string {
    Join(Upsert(Split(content), v, p))
  }

  method AddPathToFile(content: string, v: string, p: string) returns (output: string)
    ensures output == Updated(content, v, p)
  {
    var lines := Split(content);
    var found;
    lines, found := Overwrite(lines, v, p);
    if !found {
      lines := lines + [Line(v, p)];
    }
    assert lines == Upsert(Split(content), v, p);
    output := Join(lines);
  }

  method Overwrite(was: seq<string>, v: string, p: string) returns (lines: seq<string>, found: bool)
    ensures lines == Replace(was, v, p) && found == Found(was, v)
  {
    lines, found := was, false;
    for i := 0 to |lines|
      invariant |lines| == |was|
      invariant forall j :: i <= j < |lines| ==> lines[j] == was[j]
      invariant forall j :: 0 <= j < i ==> lines[j] == if Binds(was[j], v) then Line(v, p) else was[j]
      invariant found <==> exists j :: 0 <= j < i && Binds(was[j], v)
    {
      if Contains(lines[i], Marker(v)) {
        lines := lines[i := Line(v, p)];
        found := true;
      }
    }
  }

  // -------------------------------------------------------------------------- the laws

  lemma UpdatedLines(content: string, v: string, p: string)
    requires NoNewline(v) && NoNewline(p)
    ensures Split(Updated(content, v, p)) == Upsert(Split(content), v, p)
  {
    var lines := Upsert(Split(content), v, p);
    forall i | 0 <= i < |lines| ensures NoNewline(lines[i]) {
      if i < |Split(content)| { assert NoNewline(Split(content)[i]); }
    }
    SplitJoin(lines);
  }

  /** The variable is bound, to p and to nothing else. */
  ghost predicate BoundTo(content: string, v: string, p: string) {
    LinesBindTo(Split(content), v, p)
  }

  ghost predicate LinesBindTo(lines: seq<string>, v: string, p: string) {
    Found(lines, v) && forall i :: 0 <= i < |lines| && Binds(lines[i], v) ==> lines[i] == Line(v, p)
  }

  lemma UpsertBinds(lines: seq<string>, v: string, p: string)
    ensures var r := Upsert(lines, v, p);
            && LinesBindTo(r, v, p)
            && |r| == |lines| + (if Found(lines, v) then 0 else 1)
            && (forall i :: 0 <= i < |lines| && !Binds(lines[i], v) ==> r[i] == lines[i])
  {
    var r := Upsert(lines, v, p);
    LineBinds(v, p);
    if i :| 0 <= i < |lines| && Binds(lines[i], v) {
      assert r[i] == Line(v, p);
    } else {
      assert r[|lines|] == Line(v, p);
    }
  }

  /** After an update the variable is bound to p alone, and every line that did not bind it keeps
      its text and its place; one line is added exactly if none bound it. */
  lemma UpdateBinds(content: string, v: string, p: string)
    requires NoNewline(v) && NoNewline(p)
    ensures BoundTo(Updated(content, v, p), v, p)
    ensures var before, after := Split(content), Split(Updated(content, v, p));
            && |after| == |before| + (if Found(before, v) then 0 else 1)
            && forall i :: 0 <= i < |before| && !Binds(before[i], v) ==> after[i] == before[i]
  {
    UpdatedLines(content, v, p);
    UpsertBinds(Split(content), v, p);
  }

  /** The line it writes, which is put at the end of a file that has none for the variable. */
  lemma LineIs(content: string, v: string, p: string)
    ensures Line(v, p) == "export " + v + "=" + p
    ensures !Found(Split(content), v) ==> Updated(content, v, p) == content + "\n" + ("export " + v + "=" + p)
  {
    assert Line(v, p) == "export " + v + "=" + p;
    if !Found(Split(content), v) {
      assert Replace(Split(content), v, p) == Split(content);
      JoinSplit(content);
      JoinSnoc(Split(content), Line(v, p));
    }
  }

  lemma UpsertTwice(lines: seq<string>, v: string, p: string, q: string)
    ensures Upsert(Upsert(lines, v, p), v, q) == Upsert(lines, v, q)
  {
    var once := Upsert(lines, v, p);
    UpsertBinds(lines, v, p);
    LineBinds(v, p);
    var twice, direct := Upsert(once, v, q), Upsert(lines, v, q);
    assert |twice| == |direct|;
    forall i | 0 <= i < |direct| ensures twice[i] == direct[i] {
      if i < |lines| { assert once[i] == if Binds(lines[i], v) then Line(v, p) else lines[i]; }
    }
  }

  /** A later update overrides an earlier one as if that had never been; repeating one changes
      nothing. */
  lemma LastUpdateWins(content: string, v: string, p: string, q: string)
    requires NoNewline(v) && NoNewline(p)
    ensures Updated(Updated(content, v, p), v, q) == Updated(content, v, q)
  {
    UpdatedLines(content, v, p);
    UpsertTwice(Split(content), v, p, q);
  }

  /** A shell variable name. */
  predicate IsName(v: string) {
    '=' !in v && ' ' !in v && '\n' !in v
  }

  /** A line of one variable can bind another only inside its path. */
  lemma BindsOtherOnlyInPath(v: string, p: string, w: string)
    requires IsName(v) && IsName(w) && v != w
    ensures Binds(Line(v, p), w) <==> Contains(p, Marker(w))
  {
    var line, tail := Line(v, p), v + "=" + p;
    OtherMarker(v, p, w);
    assert Contains(line, Marker(w)) <==> Contains(line[1..], Marker(w));
    assert line[1..] == "xport " + tail;
    SkipLetters("xport ", tail, w);
    SkipName(v, p, w);
  }

  /** No marker starts at a letter other than its own first one. */
  lemma {:induction false} SkipLetters(letters: string, s: string, w: string)
    requires 'e' !in letters
    ensures Contains(letters + s, Marker(w)) <==> Contains(s, Marker(w))
  {
    if letters == "" {
      assert letters + s == s;
    } else {
      assert letters[0] in letters;
      Differs(letters + s, Marker(w), 0);
      SkipLetters(letters[1..], s, w);
      assert (letters + s)[1..] == letters[1..] + s;
    }
  }

  /** No marker starts inside a name: its blank would have to be there. */
  lemma {:induction false} SkipName(v: string, p: string, w: string)
    requires IsName(v)
    ensures Contains(v + "=" + p, Marker(w)) <==> Contains(p, Marker(w))
  {
    if v == "" {
      SkipLetters("=", p, w);
      assert v + "=" + p == "=" + p;
    } else {
      var s, m := v + "=" + p, Marker(w);
      assert m[..7] == "export ";
      if |v| > 6 {
        assert m[6] == "export "[6] && s[6] == v[6] && v[6] in v;
        Differs(s, m, 6);
      } else {
        assert m[|v|] == "export "[|v|] && s[|v|] == '=';
        Differs(s, m, |v|);
      }
      SkipName(v[1..], p, w);
      assert s[1..] == v[1..] + "=" + p;
    }
  }

  lemma OtherMarker(v: string, p: string, w: string)
    requires IsName(v) && IsName(w) && v != w
    ensures !StartsWith(Line(v, p), Marker(w))
  {
    var line, m := Line(v, p), Marker(w);
    assert line == "export " + v + "=" + p;
    if |w| < |v| {
      assert line[7 + |w|] == v[|w|] && v[|w|] in v && m[7 + |w|] == '=';
      Differs(line, m, 7 + |w|);
    } else if |v| < |w| {
      assert line[7 + |v|] == '=' && m[7 + |v|] == w[|v|] && w[|v|] in w;
      Differs(line, m, 7 + |v|);
    } else {
      var j :| 0 <= j < |v| && v[j] != w[j];
      assert line[7 + j] == v[j] && m[7 + j] == w[j];
      Differs(line, m, 7 + j);
    }
  }

  lemma UpsertKeepsBinding(lines: seq<string>, v: string, p: string, w: string, q: string)
    requires LinesBindTo(lines, v, p)
    requires !Binds(Line(v, p), w) && !Binds(Line(w, q), v)
    ensures LinesBindTo(Upsert(lines, w, q), v, p)
  {
    var after := Upsert(lines, w, q);
    var i :| 0 <= i < |lines| && Binds(lines[i], v);
    assert after[i] == lines[i];
  }

  lemma UpsertLosesBinding(lines: seq<string>, v: string, p: string, w: string, q: string)
    requires LinesBindTo(lines, v, p) && Line(v, p) != Line(w, q)
    requires Binds(Line(v, p), w) || Binds(Line(w, q), v)
    ensures !LinesBindTo(Upsert(lines, w, q), v, p)
  {
    var after := Upsert(lines, w, q);
    if Binds(Line(w, q), v) {
      var j := LineIsThere(lines, w, q);
      assert Binds(after[j], v) && after[j] != Line(v, p);
    } else {
      forall j | 0 <= j < |after| ensures !Binds(after[j], v) {
        if j < |lines| { assert after[j] == if Binds(lines[j], w) then Line(w, q) else lines[j]; }
      }
    }
  }

  lemma LineIsThere(lines: seq<string>, v: string, p: string) returns (j: nat)
    ensures j < |Upsert(lines, v, p)| && Upsert(lines, v, p)[j] == Line(v, p)
  {
    if i :| 0 <= i < |lines| && Binds(lines[i], v) {
      j := i;
    } else {
      j := |lines|;
    }
  }

  /** Whether a binding survives the update of another variable, exactly: neither path may contain
      the other variable's export. */
  lemma SurvivesOtherUpdate(content: string, v: string, p: string, w: string, q: string)
    requires IsName(v) && IsName(w) && v != w && NoNewline(p) && NoNewline(q)
    requires BoundTo(content, v, p)
    ensures BoundTo(Updated(content, w, q), v, p) <==> !Contains(p, Marker(w)) && !Contains(q, Marker(v))
  {
    UpdatedLines(content, w, q);
    BindsOtherOnlyInPath(v, p, w);
    BindsOtherOnlyInPath(w, q, v);
    DifferentLines(v, p, w, q);
    if !Contains(p, Marker(w)) && !Contains(q, Marker(v)) {
      UpsertKeepsBinding(Split(content), v, p, w, q);
    } else {
      UpsertLosesBinding(Split(content), v, p, w, q);
    }
  }

  lemma DifferentLines(v: string, p: string, w: string, q: string)
    requires IsName(v) && IsName(w) && v != w
    ensures Line(v, p) != Line(w, q)
  {
    OtherMarker(v, p, w);
    assert StartsWith(Line(w, q), Marker(w));
  }

  /** Updates of different variables whose paths mention neither commute on lookup. */
  lemma UpdatesCommute(content: string, v: string, p: string, w: string, q: string)
    requires IsName(v) && IsName(w) && v != w && NoNewline(p) && NoNewline(q)
    requires !Contains(p, Marker(w)) && !Contains(q, Marker(v))
    ensures BoundTo(Updated(Updated(content, v, p), w, q), v, p) && BoundTo(Updated(Updated(content, v, p), w, q), w, q)
    ensures BoundTo(Updated(Updated(content, w, q), v, p), v, p) && BoundTo(Updated(Updated(content, w, q), v, p), w, q)
  {
    UpdateBinds(content, v, p);
    UpdateBinds(content, w, q);
    UpdateBinds(Updated(content, v, p), w, q);
    UpdateBinds(Updated(content, w, q), v, p);
    SurvivesOtherUpdate(Updated(content, v, p), v, p, w, q);
    SurvivesOtherUpdate(Updated(content, w, q), w, q, v, p);
  }

  /** A path that mentions another variable's export takes that variable's line away. */
  lemma LostBinding(v: string, p: string, w: string)
    requires IsName(v) && IsName(w) && v != w && NoNewline(p)
    ensures BoundTo(Line(v, p), v, p) && !BoundTo(Updated(Line(v, p), w, Marker(v)), v, p)
  {
    SplitLine(Line(v, p));
    LineBinds(v, p);
    assert Binds(Split(Line(v, p))[0], v);
    assert Marker(v)[..|Marker(v)|] == Marker(v) && StartsWith(Marker(v), Marker(v));
    SurvivesOtherUpdate(Line(v, p), v, p, w, Marker(v));
  }
}
