/** How an exec server cuts the command line of a job into arguments (consumeJob). */
module Arguments {
  import opened Words

  const ARG_MAX := 20

  predicate IsDelim(c: char) {
    c == ' ' || c == '\n'
  }

  predicate IsWord(w: string) {
    w != [] && forall i :: 0 <= i < |w| ==> w[i] != ' ' && w[i] != '\n'
  }

  /** The first position from `i` on that is not a delimiter. */
  function Skip(s: string, i: nat): (k: nat)
    requires i <= |s|
    ensures i <= k <= |s| && (k < |s| ==> !IsDelim(s[k]))
    ensures forall j :: i <= j < k ==> IsDelim(s[j])
    decreases |s| - i
  {
    if i < |s| && IsDelim(s[i]) then Skip(s, i + 1) else i
  }

  /** The end of the run of other characters that starts at `i`. */
  function WordEnd(s: string, i: nat): (k: nat)
    requires i <= |s|
    ensures i <= k <= |s| && (k < |s| ==> IsDelim(s[k]))
    ensures forall j :: i <= j < k ==> !IsDelim(s[j])
    decreases |s| - i
  {
    if i < |s| && !IsDelim(s[i]) then WordEnd(s, i + 1) else i
  }

  /** The maximal runs free of delimiters, from `i` on. */
  function Tokens(s: string, i: nat): (ws: seq<string>)
    requires i <= |s|
    ensures forall k :: 0 <= k < |ws| ==> IsWord(ws[k])
    decreases |s| - i
  {
    var b := Skip(s, i);
    if b == |s| then []
    else
      var e := WordEnd(s, b);
      [s[b..e]] + Tokens(s, e)
  }

  // ---------------------------------------------------------------- what the words are

  function Flatten(ws: seq<string>): string {
    if ws == [] then [] else ws[0] + Flatten(ws[1..])
  }

  /** The line without its spaces and newlines. */
  function Letters(s: string): string {
    if s == [] then [] else (if s[0] == ' ' || s[0] == '\n' then [] else [s[0]]) + Letters(s[1..])
  }

  lemma {:induction false} DropDelims(s: string, i: nat, k: nat)
    requires i <= k <= |s| && forall j :: i <= j < k ==> IsDelim(s[j])
    ensures Letters(s[i..]) == Letters(s[k..])
    decreases k - i
  {
    if i < k {
      DropDelims(s, i + 1, k);
      assert s[i..][1..] == s[i + 1..];
    }
  }

  lemma {:induction false} KeepLetters(s: string, i: nat, k: nat)
    requires i <= k <= |s| && forall j :: i <= j < k ==> !IsDelim(s[j])
    ensures Letters(s[i..]) == s[i..k] + Letters(s[k..])
    decreases k - i
  {
    if i < k {
      KeepLetters(s, i + 1, k);
      assert s[i..][1..] == s[i + 1..];
      assert s[i..k] == [s[i]] + s[i + 1..k];
    }
  }

  /** The words are all the letters of the line, in order; each word is a maximal run because
      it ends at a delimiter or at the end of the line. */
  lemma {:induction false} TokensAreTheLetters(s: string, i: nat)
    requires i <= |s|
    ensures Flatten(Tokens(s, i)) == Letters(s[i..])
    decreases |s| - i
  {
    var b := Skip(s, i);
    DropDelims(s, i, b);
    if b == |s| {
      assert s[b..] == [];
    } else {
      var e := WordEnd(s, b);
      KeepLetters(s, b, e);
      TokensAreTheLetters(s, e);
      assert Tokens(s, i)[1..] == Tokens(s, e);
    }
  }

  /** `w` stands at `at` in the line, between spaces, newlines and the ends of the line. */
  predicate IsRun(s: string, at: nat, w: string) {
    && at + |w| <= |s| && s[at..at + |w|] == w
    && (at == 0 || s[at - 1] == ' ' || s[at - 1] == '\n')
    && (at + |w| == |s| || s[at + |w|] == ' ' || s[at + |w|] == '\n')
  }

  /** The words stand at these places, one after the other and apart. */
  predicate RunsAt(s: string, ws: seq<string>, at: seq<nat>) {
    && |at| == |ws|
    && (forall k :: 0 <= k < |ws| ==> IsRun(s, at[k], ws[k]))
    && (forall k, m :: 0 <= k < m < |ws| ==> at[k] + |ws[k]| < at[m])
  }

  /** The words are the maximal runs of the line that are free of spaces and newlines: each
      stands between delimiters, and together they are all its other characters, in order. */
  ghost predicate Splits(s: string, ws: seq<string>) {
    && (forall k :: 0 <= k < |ws| ==> IsWord(ws[k]))
    && Flatten(ws) == Letters(s)
    && exists at :: RunsAt(s, ws, at)
  }

  lemma RunsCons(s: string, w: string, b: nat, ws: seq<string>, at: seq<nat>)
    requires IsRun(s, b, w) && RunsAt(s, ws, at) && forall k :: 0 <= k < |at| ==> b + |w| < at[k]
    ensures RunsAt(s, [w] + ws, [b] + at)
  {
    hide IsRun;
    var ws', at' := [w] + ws, [b] + at;
    assert forall k :: 0 < k < |ws'| ==> ws'[k] == ws[k - 1] && at'[k] == at[k - 1];
  }

  lemma {:induction false} TokensStand(s: string, i: nat) returns (at: seq<nat>)
    requires i <= |s| && (i == 0 || i == |s| || IsDelim(s[i]))
    ensures RunsAt(s, Tokens(s, i), at) && forall k :: 0 <= k < |at| ==> i <= at[k] && (i > 0 ==> i < at[k])
    decreases |s| - i
  {
    hide Tokens, Skip, WordEnd, RunsAt;
    TokensStep(s, i);
    var b := Skip(s, i);
    if b == |s| {
      at := [];
      NoRuns(s);
    } else {
      WordsAdvance(s, b);
      var e := WordEnd(s, b);
      var rest := TokensStand(s, e);
      assert IsRun(s, b, s[b..e]);
      RunsCons(s, s[b..e], b, Tokens(s, e), rest);
      at := [b] + rest;
    }
  }

  lemma NoRuns(s: string)
    ensures RunsAt(s, [], [])
  {
  }

  lemma TokensSplit(s: string)
    ensures Splits(s, Tokens(s, 0))
  {
    var at := TokensStand(s, 0);
    TokensAreTheLetters(s, 0);
    assert s[0..] == s;
  }

  /** The words joined by single spaces. */
  function Join(ws: seq<string>): string {
    if ws == [] then []
    else if |ws| == 1 then ws[0]
    else ws[0] + " " + Join(ws[1..])
  }

  /** Splitting does not look behind its starting point. */
  lemma {:induction false} TokensOfSuffix(s: string, i: nat)
    requires i <= |s|
    ensures Tokens(s, i) == Tokens(s[i..], 0)
  {
    TokensShift(s, i, 0);
  }

  /** One word, or none, and the rest. */
  lemma TokensStep(s: string, i: nat)
    requires i <= |s|
    ensures var b := Skip(s, i);
            Tokens(s, i) == if b == |s| then [] else [s[b..WordEnd(s, b)]] + Tokens(s, WordEnd(s, b))
  {
  }

  lemma {:induction false} TokensShift(s: string, i: nat, k: nat)
    requires i + k <= |s|
    ensures Tokens(s, i + k) == Tokens(s[i..], k)
    decreases |s| - i - k
  {
    hide Skip, WordEnd, Tokens;
    var t := s[i..];
    SkipShift(s, i, k);
    TokensStep(s, i + k);
    TokensStep(t, k);
    var b := Skip(t, k);
    if b < |t| {
      EndShift(s, i, b);
      var e := WordEnd(t, b);
      assert s[i + b..i + e] == t[b..e];
      assert k < e by { WordsAdvance(t, b); }
      TokensShift(s, i, e);
    }
  }

  lemma WordsAdvance(s: string, b: nat)
    requires b < |s| && !IsDelim(s[b])
    ensures b < WordEnd(s, b)
  {
  }

  lemma {:induction false} SkipShift(s: string, i: nat, k: nat)
    requires i + k <= |s|
    ensures Skip(s, i + k) == i + Skip(s[i..], k)
    decreases |s| - i - k
  {
    if i + k < |s| && IsDelim(s[i + k]) {
      SkipShift(s, i, k + 1);
    }
  }

  lemma {:induction false} EndShift(s: string, i: nat, k: nat)
    requires i + k <= |s|
    ensures WordEnd(s, i + k) == i + WordEnd(s[i..], k)
    decreases |s| - i - k
  {
    if i + k < |s| && !IsDelim(s[i + k]) {
      EndShift(s, i, k + 1);
    }
  }

  /** A word, a delimiter and the rest of a line. */
  lemma TokensCons(w: string, rest: string)
    requires IsWord(w) && (rest == [] || IsDelim(rest[0]))
    ensures Tokens(w + rest, 0) == [w] + Tokens(rest, 0)
  {
    var s := w + rest;
    assert Skip(s, 0) == 0 by { assert !IsDelim(s[0]); }
    var e := WordEnd(s, 0);
    assert forall k :: 0 <= k < |w| ==> s[k] == w[k];
    assert |s| == |w| || s[|w|] == rest[0];
    assert e == |w|;
    assert s[0..e] == w && s[e..] == rest;
    TokensOfSuffix(s, e);
  }

  /** A leading space adds nothing. */
  lemma TokensSpace(s: string)
    ensures Tokens([' '] + s, 0) == Tokens(s, 0)
  {
    var t := [' '] + s;
    assert t[1..] == s;
    SkipShift(t, 1, 0);
    assert Skip(t, 0) == Skip(t, 1);
    TokensShift(t, 1, 0);
    assert Tokens(t, 0) == Tokens(t, 1);
  }

  /** Splitting undoes joining. */
  lemma {:induction false} SplitJoin(ws: seq<string>)
    requires forall k :: 0 <= k < |ws| ==> IsWord(ws[k])
    ensures Tokens(Join(ws), 0) == ws
  {
    hide Tokens;
    if |ws| == 0 {
      NoTokens();
    } else if |ws| == 1 {
      NoTokens();
      TokensCons(ws[0], []);
      assert ws[0] + [] == ws[0] && [ws[0]] + [] == ws;
    } else {
      SplitJoin(ws[1..]);
      var rest := " " + Join(ws[1..]);
      TokensSpace(Join(ws[1..]));
      TokensCons(ws[0], rest);
      assert Join(ws) == ws[0] + rest && [ws[0]] + ws[1..] == ws;
    }
  }

  lemma NoTokens()
    ensures Tokens([], 0) == []
  {
  }

  // ---------------------------------------------------------------- the loop

  /** strtok_r: the next token from `pos` and where to go on. */
  method NextToken(line: string, pos: nat) returns (token: Option<string>, next: nat)
    requires pos <= |line|
    ensures next <= |line|
    ensures token.None? ==> Tokens(line, pos) == []
    ensures token.Some? ==> pos < next && Tokens(line, pos) == [token.value] + Tokens(line, next)
  {
    var b := pos;
    while b < |line| && IsDelim(line[b])
      invariant pos <= b <= |line|
      invariant Skip(line, pos) == Skip(line, b)
    {
      b := b + 1;
    }
    if b == |line| {
      return None, b;
    }
    var e := b;
    while e < |line| && !IsDelim(line[e])
      invariant b <= e <= |line|
      invariant WordEnd(line, b) == WordEnd(line, e)
    {
      e := e + 1;
    }
    return Some(line[b..e]), e;
  }

  /** The loop of consumeJob: of the maximal runs of the line that are free of spaces and
      newlines the first nineteen at most, then null pointers. */
  method ParseArgs(line: string) returns (args: array<Option<string>>)
    ensures fresh(args) && args.Length == 20
    ensures Splits(line, Tokens(line, 0))
    ensures var ws := Tokens(line, 0);
            var n := if |ws| < 20 then |ws| else 19;
            && (forall k :: 0 <= k < n ==> args[k] == Some(ws[k]))
            && (forall k :: n <= k < 20 ==> args[k] == None)
  {
    TokensSplit(line);
    hide Tokens, Splits;
    args := new Option<string>[ARG_MAX](i => None);
    ghost var ws := Tokens(line, 0);
    var i, pos := 0, 0;
    while true
      invariant 0 <= i < ARG_MAX && pos <= |line|
      invariant i <= |ws| && Tokens(line, pos) == ws[i..]
      invariant forall k :: 0 <= k < i ==> args[k] == Some(ws[k])
      invariant forall k :: i <= k < ARG_MAX ==> args[k] == None
      decreases |line| - pos
    {
      var token, next := NextToken(line, pos);
      args[i] := token;
      if token.None? {
        break;
      }
      pos := next;
      i := i + 1;
      if i == ARG_MAX {
        args[ARG_MAX - 1] := None;
        break;
      }
    }
  }

  /** What a job was started with can be written on a line again: re-splitting gives the
      same arguments. */
  lemma ArgumentsRoundTrip(line: string)
    ensures var ws := Tokens(line, 0);
            var n := if |ws| < ARG_MAX then |ws| else ARG_MAX - 1;
            Tokens(Join(ws[..n]), 0) == ws[..n]
  {
    var ws := Tokens(line, 0);
    var n := if |ws| < ARG_MAX then |ws| else ARG_MAX - 1;
    SplitJoin(ws[..n]);
  }
}
