/** Runner names: lower-cased words of letters and digits joined by single dashes, cut to what Incus
    accepts as an instance name. */
module RunnerNames {
  import opened Tracking

  // ----- words -----

  predicate Alnum(c: char) {
    'a' <= c <= 'z' || '0' <= c <= '9'
  }

  /** Lower case as far as it matters here: besides A to Z only the Kelvin sign and the dotted capital I
      have a lower-case form among a to z. */
  function LowerChar(c: char): char {
    if 'A' <= c <= 'Z' then (c as int - 'A' as int + 'a' as int) as char
    else if c == '\U{212A}' then 'k'
    else if c == '\U{0130}' then 'i'
    else c
  }

  function Lower(s: string): string {
    seq(|s|, i requires 0 <= i < |s| => LowerChar(s[i]))
  }

  /** The maximal runs of letters and digits that are finished, and the one that reaches the end. */
  datatype Split = Split(done: seq<string>, current: string)

  function Scan(s: string): Split {
    if s == "" then Split([], "")
    else
      var p, c := Scan(s[..|s| - 1]), s[|s| - 1];
      if Alnum(c) then Split(p.done, p.current + [c])
      else if p.current != "" then Split(p.done + [p.current], "")
      else p
  }

  function Words(s: string): seq<string> {
    var p := Scan(s);
    if p.current == "" then p.done else p.done + [p.current]
  }

  /** Each word followed by a dash. */
  function Dashes(ws: seq<string>): string {
    if ws == [] then "" else Dashes(ws[..|ws| - 1]) + ws[|ws| - 1] + "-"
  }

  function Join(ws: seq<string>): string {
    if ws == [] then "" else Dashes(ws[..|ws| - 1]) + ws[|ws| - 1]
  }

  /** The meaning of sanitizeNamePart. */
  function Sanitized(value: string): string {
    Join(Words(Lower(value)))
  }

  /** Letters and digits with single dashes between them. */
  predicate Clean(s: string) {
    && (forall i :: 0 <= i < |s| ==> Alnum(s[i]) || s[i] == '-')
    && (forall i :: 0 <= i < |s| - 1 ==> s[i] != '-' || s[i + 1] != '-')
    && (s != "" ==> s[0] != '-' && s[|s| - 1] != '-')
  }

  // ----- what the loop builds -----

  /** The builder after these characters: each run of other characters has become one dash. */
  function Dashed(s: string): string {
    if s == "" then ""
    else
      var d, c := Dashed(s[..|s| - 1]), s[|s| - 1];
      if Alnum(c) then d + [c] else if d != "" && d[|d| - 1] == '-' then d else d + "-"
  }

  function TrimLeft(s: string): string {
    if s != "" && s[0] == '-' then TrimLeft(s[1..]) else s
  }

  function TrimRight(s: string): string {
    if s != "" && s[|s| - 1] == '-' then TrimRight(s[..|s| - 1]) else s
  }

  function Trim(s: string): string {
    TrimRight(TrimLeft(s))
  }

  function Lead(s: string): string {
    if s != "" && !Alnum(s[0]) then "-" else ""
  }

  lemma {:induction false} DashedEnd(s: string)
    requires s != ""
    ensures Dashed(s) != "" && (Dashed(s)[|Dashed(s)| - 1] == '-' <==> !Alnum(s[|s| - 1]))
    ensures Scan(s).current == "" <==> !Alnum(s[|s| - 1])
  {
    if |s| > 1 {
      DashedEnd(s[..|s| - 1]);
    }
  }

  lemma DashesAppend(ws: seq<string>, w: string)
    ensures Dashes(ws + [w]) == Dashes(ws) + w + "-"
  {
    assert (ws + [w])[..|ws|] == ws;
  }

  lemma Associates(x: string, y: string, z: string)
    ensures x + y + z == x + (y + z)
  {}

  lemma Regroups(x: string, y: string, z: string, e: string)
    ensures x + y + z + e == x + (y + z + e) + ""
  {}

  /** The builder holds the finished words, each with its dash, and the current one, after a dash for
      whatever comes before the first word. */
  lemma {:induction false} DashedIsSplit(s: string)
    ensures Dashed(s) == Lead(s) + Dashes(Scan(s).done) + Scan(s).current
  {
    if |s| == 1 {
      assert s[..0] == "" && Scan("") == Split([], "") && Dashed("") == "";
    } else if |s| > 1 {
      var front, c := s[..|s| - 1], s[|s| - 1];
      var p := Scan(front);
      DashedIsSplit(front);
      DashedEnd(front);
      assert Lead(s) == Lead(front);
      if Alnum(c) {
        Associates(Lead(s) + Dashes(p.done), p.current, [c]);
      } else if p.current != "" {
        DashesAppend(p.done, p.current);
        Regroups(Lead(s), Dashes(p.done), p.current, "-");
      }
    }
  }

  // ----- trimming leaves the joined words -----

  predicate IsWord(w: string) {
    w != "" && forall i :: 0 <= i < |w| ==> Alnum(w[i])
  }

  predicate AreWords(ws: seq<string>) {
    forall k :: 0 <= k < |ws| ==> IsWord(ws[k])
  }

  lemma {:induction false} ScanFindsWords(s: string)
    ensures AreWords(Scan(s).done) && (Scan(s).current != "" ==> IsWord(Scan(s).current))
  {
    if s != "" {
      ScanFindsWords(s[..|s| - 1]);
    }
  }

  /** Letters, digits and dashes, no two dashes in a row, none at the start. */
  predicate Spaced(s: string) {
    && (forall i :: 0 <= i < |s| ==> Alnum(s[i]) || s[i] == '-')
    && (forall i :: 0 <= i < |s| - 1 ==> s[i] != '-' || s[i + 1] != '-')
    && (s != "" ==> s[0] != '-')
  }

  lemma SpacedAppend(x: string, w: string)
    requires Spaced(x) && IsWord(w)
    ensures Spaced(x + w) && Spaced(x + w + "-") && Clean(x + w)
  {}

  lemma {:induction false} DashesSpaced(ws: seq<string>)
    requires AreWords(ws)
    ensures Spaced(Dashes(ws))
  {
    if ws != [] {
      DashesSpaced(ws[..|ws| - 1]);
      SpacedAppend(Dashes(ws[..|ws| - 1]), ws[|ws| - 1]);
    }
  }

  lemma JoinClean(ws: seq<string>)
    requires AreWords(ws)
    ensures Clean(Join(ws)) && (Join(ws) == "" <==> ws == [])
  {
    if ws != [] {
      DashesSpaced(ws[..|ws| - 1]);
      SpacedAppend(Dashes(ws[..|ws| - 1]), ws[|ws| - 1]);
    }
  }

  lemma WordsClean(s: string)
    ensures AreWords(Words(s)) && Clean(Join(Words(s)))
  {
    ScanFindsWords(s);
    JoinClean(Words(s));
  }

  lemma TrimLeftDrops(lead: string, x: string)
    requires (lead == "" || lead == "-") && (x == "" || x[0] != '-')
    ensures TrimLeft(lead + x) == x
  {
    assert ("-" + x)[1..] == x;
    assert "" + x == x;
  }

  lemma TrimRightDrops(x: string)
    requires x != "" && x[|x| - 1] != '-'
    ensures TrimRight(x) == x && TrimRight(x + "-") == x
  {
    assert (x + "-")[..|x|] == x;
  }

  /** The loop and the trim produce the words joined by single dashes. */
  lemma TrimmedIsJoin(s: string)
    ensures Trim(Dashed(s)) == Join(Words(s))
  {
    var p := Scan(s);
    var x := Dashes(p.done) + p.current;
    DashedIsSplit(s);
    Associates(Lead(s), Dashes(p.done), p.current);
    ScanFindsWords(s);
    DashesSpaced(p.done);
    TrimLeftDrops(Lead(s), x);
    if p.current != "" {
      assert (p.done + [p.current])[..|p.done|] == p.done;
      TrimRightDrops(x);
    } else if p.done != [] {
      JoinClean(p.done);
      TrimRightDrops(Join(p.done));
      assert x == Join(p.done) + "-";
    }
  }

  /** The program's loop: a builder and a flag that says whether it ends in a dash. */
  method SanitizeNamePart(value: string) returns (out: string)
    ensures out == Sanitized(value)
  {
    var lowered := Lower(value);
    var b, lastDash := "", false;
    for i := 0 to |lowered|
      invariant b == Dashed(lowered[..i])
      invariant lastDash <==> b != "" && b[|b| - 1] == '-'
    {
      assert lowered[..i + 1][..i] == lowered[..i];
      if Alnum(lowered[i]) {
        b := b + [lowered[i]];
        lastDash := false;
      } else if !lastDash {
        b := b + "-";
        lastDash := true;
      }
    }
    assert lowered[..|lowered|] == lowered;
    TrimmedIsJoin(lowered);
    out := Trim(b);
  }

  // ----- what sanitizing means -----

  lemma {:induction false} SpacedIsDashed(s: string)
    requires Spaced(s)
    ensures Dashed(s) == s
  {
    if s != "" {
      SpacedIsDashed(s[..|s| - 1]);
    }
  }

  lemma CleanFixed(s: string)
    requires Clean(s)
    ensures Sanitized(s) == s
  {
    assert Lower(s) == s;
    SpacedIsDashed(s);
    TrimmedIsJoin(s);
    if s != "" {
      TrimLeftDrops("", s);
      TrimRightDrops(s);
    }
  }

  /** Sanitizing yields letters and digits with single dashes between them, is idempotent, and leaves
      exactly such strings alone. */
  lemma SanitizedIsClean(value: string)
    ensures Clean(Sanitized(value))
    ensures Sanitized(Sanitized(value)) == Sanitized(value)
    ensures Sanitized(value) == value <==> Clean(value)
  {
    WordsClean(Lower(value));
    CleanFixed(Sanitized(value));
    if Clean(value) {
      CleanFixed(value);
    }
  }

  /** A letter or digit, in either case, or one of the two that have a lower-case form among a to z. */
  predicate Counts(c: char) {
    'a' <= c <= 'z' || 'A' <= c <= 'Z' || '0' <= c <= '9' || c == '\U{212A}' || c == '\U{0130}'
  }

  function Small(c: char): char {
    if 'A' <= c <= 'Z' then (c as int + 32) as char
    else if c == '\U{212A}' then 'k' else if c == '\U{0130}' then 'i' else c
  }

  lemma LowerMeans(c: char)
    ensures Alnum(LowerChar(c)) <==> Counts(c)
    ensures Counts(c) ==> LowerChar(c) == Small(c)
  {}

  /** The letters and digits of s in lower case, each with whether anything else stands between it and the one
      before it. */
  function Reading(s: string): seq<(char, bool)> {
    if s == "" then []
    else
      var before, c := Reading(s[..|s| - 1]), s[|s| - 1];
      if Counts(c) then before + [(Small(c), before != [] && !Counts(s[|s| - 2]))] else before
  }

  lemma LastWordGrows(done: seq<string>, current: string, c: char)
    ensures Join(done + [current + [c]]) == Dashes(done) + current + [c]
    ensures Join(done + [current]) == Dashes(done) + current
  {
    assert (done + [current])[..|done|] == done && (done + [current + [c]])[..|done|] == done;
  }

  lemma ScanGrows(front: string, c: char)
    ensures var p := Scan(front);
            Words(front + [c]) == if Alnum(c) then p.done + [p.current + [c]] else Words(front)
  {
    assert (front + [c])[..|front|] == front;
  }

  lemma DashesOfJoin(ws: seq<string>)
    requires ws != []
    ensures Dashes(ws) == Join(ws) + "-"
  {}

  /** The words so far, without the one that has not ended, if there is one. */
  lemma CurrentWord(front: string)
    ensures var p, before := Scan(front), Join(Words(front));
            && (before == "" ==> p.done == [] && p.current == "")
            && (before != "" && !Alnum(front[|front| - 1]) ==> Dashes(p.done) + p.current == before + "-")
            && (before != "" && Alnum(front[|front| - 1]) ==> Dashes(p.done) + p.current == before)
  {
    var p := Scan(front);
    ScanFindsWords(front);
    JoinClean(Words(front));
    if front != "" { DashedEnd(front); }
    LastWordGrows(p.done, p.current, ' ');
    if p.current == "" && p.done != [] { DashesOfJoin(p.done); }
  }

  lemma JoinGrows(front: string, c: char)
    ensures var before := Join(Words(front));
            Join(Words(front + [c]))
            == if !Alnum(c) then before
               else before + (if before != "" && !Alnum(front[|front| - 1]) then "-" else "") + [c]
  {
    var p := Scan(front);
    ScanGrows(front, c);
    CurrentWord(front);
    LastWordGrows(p.done, p.current, c);
  }

  function Gap(value: string, out: string): string {
    if out != "" && value != "" && !Counts(value[|value| - 1]) then "-" else ""
  }

  lemma SanitizedGrows(front: string, c: char)
    ensures var out := Sanitized(front);
            Sanitized(front + [c]) == if Counts(c) then out + Gap(front, out) + [Small(c)] else out
  {
    LowerMeans(c);
    assert Lower(front + [c]) == Lower(front) + [LowerChar(c)];
    JoinGrows(Lower(front), LowerChar(c));
    if front != "" { LowerMeans(front[|front| - 1]); }
  }

  lemma ReadingMore(s: string, c: char)
    ensures Reading(s + [c])
      == if Counts(c) then Reading(s) + [(Small(c), Reading(s) != [] && !Counts(s[|s| - 1]))] else Reading(s)
  {
    assert (s + [c])[..|s|] == s;
  }

  lemma ReadingGap(out: string, c: char)
    requires Clean(out) && Counts(c)
    ensures Reading(out) == [] <==> out == ""
    ensures Reading(out + [Small(c)]) == Reading(out) + [(Small(c), false)]
    ensures Reading(out + "-" + [Small(c)]) == Reading(out) + [(Small(c), out != "")]
  {
    ReadingMore(out, Small(c));
    ReadingMore(out, '-');
    ReadingMore(out + "-", Small(c));
  }

  /** Spelled out: sanitizing keeps the letters and digits in lower case, and keeps apart what anything stood
      between. */
  lemma {:induction false} SanitizedReads(value: string)
    ensures Reading(Sanitized(value)) == Reading(value)
  {
    if value == "" {
      assert Lower("") == "" && Words("") == [];
    } else {
      var n := |value| - 1;
      var front, c := value[..n], value[n];
      SanitizedReads(front);
      SanitizedGrows(front, c);
      WordsClean(Lower(front));
      ReadingMore(front, c);
      assert front + [c] == value;
      if Counts(c) {
        ReadingGap(Sanitized(front), c);
        assert Sanitized(front) + "" == Sanitized(front);
      }
    }
  }

  /** The last letter or digit, and what comes before it and before its dash. */
  lemma Peeled(a: string) returns (out: string, c: char, dash: bool)
    requires Clean(a) && a != ""
    ensures Clean(out) && |out| < |a| && Reading(a) == Reading(out) + [(c, dash)]
    ensures a == if dash then out + "-" + [c] else out + [c]
  {
    var k := |a| - 1;
    c, dash := a[k], k > 0 && a[k - 1] == '-';
    if dash {
      out := a[..k - 1];
      assert a == out + "-" + [c] && a[k - 2] != '-';
    } else {
      out := a[..k];
      assert a == out + [c];
    }
    assert Small(c) == c;
    ReadingGap(out, c);
  }

  lemma SameLasts<T>(xs: seq<T>, x: T, ys: seq<T>, y: T)
    requires xs + [x] == ys + [y]
    ensures xs == ys && x == y
  {
    assert (xs + [x])[|xs|] == x && (ys + [y])[|ys|] == y;
    assert (xs + [x])[..|xs|] == xs && (ys + [y])[..|ys|] == ys;
  }

  /** And that determines the result, for it has lower-case letters, digits and single inner dashes only. */
  lemma {:induction false} ReadingDetermines(a: string, b: string)
    requires Clean(a) && Clean(b) && Reading(a) == Reading(b)
    ensures a == b
    decreases |a|
  {
    ReadingGap(a, 'a');
    ReadingGap(b, 'a');
    if a != "" {
      var x, c, dashX := Peeled(a);
      var y, d, dashY := Peeled(b);
      SameLasts(Reading(x), (c, dashX), Reading(y), (d, dashY));
      ReadingDetermines(x, y);
    }
  }

  lemma {:induction false} ScanAppend(a: string, b: string)
    ensures Scan(a + "-" + b) == Split(Words(a) + Scan(b).done, Scan(b).current)
  {
    if b == "" {
      assert (a + "-" + b)[..|a|] == a;
      assert a + "-" + b == a + "-";
    } else {
      var front := b[..|b| - 1];
      ScanAppend(a, front);
      assert (a + "-" + b)[..|a + "-" + b| - 1] == a + "-" + front;
    }
  }

  lemma {:induction false} DashesConcat(ws: seq<string>, vs: seq<string>)
    ensures Dashes(ws + vs) == Dashes(ws) + Dashes(vs)
  {
    if vs == [] {
      assert ws + vs == ws;
    } else {
      var front, v := vs[..|vs| - 1], vs[|vs| - 1];
      DashesConcat(ws, front);
      assert ws + vs == (ws + front) + [v];
      DashesAppend(ws + front, v);
    }
  }

  lemma JoinConcat(ws: seq<string>, vs: seq<string>)
    requires ws != [] && vs != []
    ensures Join(ws + vs) == Join(ws) + "-" + Join(vs)
  {
    var front, v, all := vs[..|vs| - 1], vs[|vs| - 1], ws + vs;
    assert all[..|all| - 1] == ws + front && all[|all| - 1] == v;
    DashesConcat(ws, front);
    DashesOfJoin(ws);
    assert Join(all) == Dashes(ws + front) + v;
    Associates(Dashes(ws), Dashes(front), v);
  }

  lemma LowerJoin(a: string, b: string)
    ensures Lower(a + "-" + b) == Lower(a) + "-" + Lower(b)
  {}

  lemma WordsJoin(a: string, b: string)
    ensures Words(a + "-" + b) == Words(a) + Words(b)
  {
    ScanAppend(a, b);
    var p := Scan(b);
    if p.current != "" {
      assert Words(a) + p.done + [p.current] == Words(a) + (p.done + [p.current]);
    }
  }

  /** A dash between two parts that do not vanish is all the parts have to do with each other. */
  lemma SanitizedJoin(a: string, b: string)
    requires Sanitized(a) != "" && Sanitized(b) != ""
    ensures Sanitized(a + "-" + b) == Sanitized(a) + "-" + Sanitized(b)
  {
    LowerJoin(a, b);
    WordsJoin(Lower(a), Lower(b));
    JoinConcat(Words(Lower(a)), Words(Lower(b)));
  }

  // ----- names -----

  const MAX_NAME_LENGTH := 63

  /** A name Incus accepts. */
  predicate WellFormed(name: string) {
    Clean(name) && 1 <= |name| <= MAX_NAME_LENGTH
  }

  lemma {:induction false} TrimRightLength(x: string)
    ensures |TrimRight(x)| <= |x| && TrimRight(x) == x[..|TrimRight(x)|]
    ensures TrimRight(x) != "" ==> TrimRight(x)[|TrimRight(x)| - 1] != '-'
  {
    if x != "" && x[|x| - 1] == '-' {
      TrimRightLength(x[..|x| - 1]);
    }
  }

  lemma {:induction false} TrimLeftLength(x: string)
    ensures |TrimLeft(x)| <= |x|
  {
    if x != "" && x[0] == '-' {
      TrimLeftLength(x[1..]);
    }
  }

  lemma TrimLength(s: string, u: string)
    ensures |Trim(s + "-" + u)| <= |s| + 1 + |u|
  {
    TrimLeftLength(s + "-" + u);
    TrimRightLength(TrimLeft(s + "-" + u));
  }

  /** makeRunnerName from its sanitized parts. */
  function NameOf(s: string, u: string): Option<string> {
    var name := Trim(s + "-" + u);
    if |name| <= MAX_NAME_LENGTH then Some(name)
    else
      var prefixLen := MAX_NAME_LENGTH - |u| - 1;
      if prefixLen < 1 then
        if |u| < MAX_NAME_LENGTH then None else Some(u[|u| - MAX_NAME_LENGTH..])
      else
        TrimLength(s, u);
        Some(TrimRight(s[..prefixLen]) + "-" + u)
  }

  /** None where the program indexes a string out of range and panics. */
  function MakeRunnerName(scaleSet: string, suffix: string): Option<string> {
    NameOf(Sanitized(scaleSet), Sanitized(suffix))
  }

  /** What the trim makes of two clean parts and their dash. */
  lemma TrimParts(s: string, u: string)
    requires Clean(s) && Clean(u)
    ensures Trim(s + "-" + u) == if s == "" then u else if u == "" then s else s + "-" + u
  {
    var x := s + "-" + u;
    if s == "" {
      assert x == "-" + u;
      TrimLeftDrops("-", u);
    } else {
      assert x == "" + x;
      TrimLeftDrops("", x);
      if u == "" {
        assert x == s + "-";
      }
    }
    if s != "" && u == "" { TrimRightDrops(s); }
    else if s != "" { TrimRightDrops(x); }
    else if u != "" { TrimRightDrops(u); }
  }

  lemma {:induction false} TrimRightKeepsFirst(x: string)
    requires x != "" && x[0] != '-'
    ensures TrimRight(x) != ""
  {
    if x[|x| - 1] == '-' {
      TrimRightKeepsFirst(x[..|x| - 1]);
    }
  }

  lemma CutClean(s: string, k: nat, u: string)
    requires Clean(s) && Clean(u) && u != "" && 1 <= k <= |s|
    ensures var front := TrimRight(s[..k]);
            front != "" && Clean(front + "-" + u) && |front| <= k && front == s[..|front|]
  {
    TrimRightLength(s[..k]);
    assert s[..k][0] != '-';
    TrimRightKeepsFirst(s[..k]);
  }

  /** The program panics on exactly one length of suffix. */
  lemma NamePanics(scaleSet: string, suffix: string)
    ensures MakeRunnerName(scaleSet, suffix) == None <==> Sanitized(scaleSet) != "" && |Sanitized(suffix)| == 62
  {
    SanitizedIsClean(scaleSet);
    SanitizedIsClean(suffix);
    TrimParts(Sanitized(scaleSet), Sanitized(suffix));
  }

  predicate Accepted(name: Option<string>) {
    name.Some? && WellFormed(name.value)
  }

  /** Spelled out: lower-case letters, digits and single inner dashes, 1 to 63 of them for a name. */
  lemma CleanMeans(name: string)
    ensures Clean(name) <==>
      && (name != "" ==> name[0] != '-' && name[|name| - 1] != '-')
      && (forall i :: 0 <= i < |name| ==> 'a' <= name[i] <= 'z' || '0' <= name[i] <= '9' || name[i] == '-')
      && (forall i :: 0 <= i < |name| - 1 ==> name[i] != '-' || name[i + 1] != '-')
    ensures WellFormed(name) <==> Clean(name) && 1 <= |name| <= 63
  {}

  /** The name ends in a dash and the whole of u. */
  predicate EndsIn(name: Option<string>, u: string) {
    name.Some? && |name.value| > |u| && name.value[|name.value| - |u| - 1..] == "-" + u
  }

  /** The inputs on which the name is not one Incus accepts: nothing is left of either part, a suffix that
      vanishes behind a long scale-set name, the panic, and a suffix so long that its cut starts at a dash. */
  predicate Misnamed(s: string, u: string) {
    || (s == "" && u == "")
    || (u == "" && |s| > 63)
    || (s != "" && |u| == 62)
    || (|u| > 63 && u[|u| - 63] == '-')
  }

  /** The cut of a suffix that is too long. */
  lemma LongSuffix(s: string, u: string)
    requires Clean(s) && Clean(u) && (|u| > 63 || (|u| >= 62 && s != ""))
    ensures Accepted(NameOf(s, u)) <==> !Misnamed(s, u)
  {
    TrimParts(s, u);
    if |u| >= 63 {
      var cut := u[|u| - 63..];
      assert forall i :: 0 <= i < |cut| ==> cut[i] == u[|u| - 63 + i];
      assert Clean(cut) <==> cut[0] != '-';
    }
  }

  lemma NoSuffix(s: string)
    requires Clean(s)
    ensures Accepted(NameOf(s, "")) <==> !Misnamed(s, "")
  {
    TrimParts(s, "");
    if |s| > 63 {
      var name := TrimRight(s[..62]) + "-" + "";
      assert name[|name| - 1] == '-';
    }
  }

  lemma Joined(s: string, u: string)
    requires Clean(s) && Clean(u) && s != "" && u != ""
    ensures Clean(s + "-" + u)
  {}

  lemma NamedWhole(s: string, u: string)
    requires Clean(s) && Clean(u) && |u| <= 63 && (s == "" || |s| + 1 + |u| <= 63 || (u == "" && |s| <= 63))
    ensures NameOf(s, u) == Some(if s == "" then u else if u == "" then s else s + "-" + u)
  {
    TrimParts(s, u);
  }

  lemma NamedCut(s: string, u: string)
    requires Clean(s) && Clean(u) && |u| <= 61 && s != "" && |s| > 62 - |u| && (u == "" ==> |s| > 63)
    ensures NameOf(s, u) == Some(TrimRight(s[..62 - |u|]) + "-" + u)
  {
    TrimParts(s, u);
  }

  lemma TailShows(front: string, u: string)
    ensures EndsIn(Some(front + "-" + u), u)
  {
    assert (front + "-" + u)[|front|..] == "-" + u;
  }

  lemma UsualSuffix(s: string, u: string)
    requires Clean(s) && Clean(u) && s != "" && 1 <= |u| <= 61
    ensures Accepted(NameOf(s, u)) && EndsIn(NameOf(s, u), u)
  {
    if |s| + 1 + |u| > 63 {
      NamedCut(s, u);
      CutClean(s, 62 - |u|, u);
      TailShows(TrimRight(s[..62 - |u|]), u);
    } else {
      NamedWhole(s, u);
      Joined(s, u);
      TailShows(s, u);
    }
  }

  /** The name is well formed exactly on the inputs that are not misnamed. */
  lemma NameWellFormed(scaleSet: string, suffix: string)
    ensures Accepted(MakeRunnerName(scaleSet, suffix)) <==> !Misnamed(Sanitized(scaleSet), Sanitized(suffix))
  {
    var s, u := Sanitized(scaleSet), Sanitized(suffix);
    SanitizedIsClean(scaleSet);
    SanitizedIsClean(suffix);
    if |u| > 63 || (|u| >= 62 && s != "") {
      LongSuffix(s, u);
    } else if u == "" {
      NoSuffix(s);
    } else if s != "" {
      UsualSuffix(s, u);
    } else {
      TrimParts(s, u);
    }
  }

  lemma CutSpelled(s: string, k: nat)
    requires Clean(s) && 1 <= k <= |s|
    ensures TrimRight(s[..k]) == if s[k - 1] == '-' then s[..k - 1] else s[..k]
  {
    if s[k - 1] == '-' {
      assert s[..k][..k - 1] == s[..k - 1];
      assert k > 1 && s[k - 2] != '-';
      TrimRightDrops(s[..k - 1]);
      assert s[..k - 1] + "-" == s[..k];
    } else {
      TrimRightDrops(s[..k]);
    }
  }

  lemma LongCut(s: string, u: string)
    requires Clean(s) && Clean(u) && (|u| > 63 || (s != "" && |u| >= 62))
    ensures NameOf(s, u) == if |u| == 62 then None else Some(u[|u| - 63..])
  {
    TrimParts(s, u);
  }

  lemma ShortCut(s: string, u: string)
    requires Clean(s) && Clean(u) && |u| <= 61 && s != "" && |s| > 62 - |u| && (u == "" ==> |s| > 63)
    ensures NameOf(s, u) == Some((if s[61 - |u|] == '-' then s[..61 - |u|] else s[..62 - |u|]) + "-" + u)
  {
    NamedCut(s, u);
    CutSpelled(s, 62 - |u|);
  }

  lemma PartsMean(s: string, u: string)
    requires Clean(s) && Clean(u)
    ensures var name := NameOf(s, u);
            if s == "" && |u| <= 63 then name == Some(u)
            else if u == "" && |s| <= 63 then name == Some(s)
            else if s != "" && u != "" && |s| + 1 + |u| <= 63 then name == Some(s + "-" + u)
            else if |u| >= 63 then name == Some(u[|u| - 63..])
            else if |u| == 62 then name == None
            else name == Some((if s[61 - |u|] == '-' then s[..61 - |u|] else s[..62 - |u|]) + "-" + u)
  {
    if |u| > 63 || (s != "" && |u| >= 62) {
      LongCut(s, u);
    } else if s == "" || |s| + 1 + |u| <= 63 || (u == "" && |s| <= 63) {
      NamedWhole(s, u);
    } else {
      ShortCut(s, u);
    }
  }

  /** Spelled out, from the sanitized parts: up to 63 characters nothing is cut. Beyond that the end of a suffix of 63
      or more is the name; a shorter one stays whole, and of the scale set's name there stays what leaves the
      whole at 63, or at 62 if a dash were left at the end of it. */
  lemma NameMeans(scaleSet: string, suffix: string, s: string, u: string)
    requires s == Sanitized(scaleSet) && u == Sanitized(suffix)
    ensures var name := MakeRunnerName(scaleSet, suffix);
            if s == "" && |u| <= 63 then name == Some(u)
            else if u == "" && |s| <= 63 then name == Some(s)
            else if s != "" && u != "" && |s| + 1 + |u| <= 63 then name == Some(s + "-" + u)
            else if |u| >= 63 then name == Some(u[|u| - 63..])
            else if |u| == 62 then name == None
            else name == Some((if s[61 - |u|] == '-' then s[..61 - |u|] else s[..62 - |u|]) + "-" + u)
  {
    SanitizedIsClean(scaleSet);
    SanitizedIsClean(suffix);
    PartsMean(s, u);
  }

  /** For every suffix of 1 to 61 characters the name is well formed and the whole suffix ends it, so
      distinct suffixes keep the names of one scale set apart however long its name is. */
  lemma SuffixKept(scaleSet: string, suffix: string)
    requires Sanitized(scaleSet) != "" && 1 <= |Sanitized(suffix)| <= 61
    ensures Accepted(MakeRunnerName(scaleSet, suffix)) && EndsIn(MakeRunnerName(scaleSet, suffix), Sanitized(suffix))
  {
    SanitizedIsClean(scaleSet);
    SanitizedIsClean(suffix);
    UsualSuffix(Sanitized(scaleSet), Sanitized(suffix));
  }
}
