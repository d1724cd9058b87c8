/** The token grammar of the six-stage contact exchange and the frame
    matcher that applies it.

    The source matches a received (upper-cased) frame against one regular
    expression per stage; each expression is three tokens separated by single
    whitespace characters, anchored at both ends. Here the tokens are
    character-class predicates, the regular language of a stage is `Lang`, and
    the matcher `Match` splits the frame at whitespace and checks the pieces.
    `MatchIsRegex` proves the two agree. */
module Grammar {
  import opened Text

  /** RE_CALL, `[A-Z0-9]+\d[A-Z0-9]*[A-Z]`: at least three characters from
      A-Z0-9, ending in a letter, with a digit after the first character. */
  predicate IsCall(t: string) {
    && |t| >= 3
    && (forall i :: 0 <= i < |t| ==> IsAlnum(t[i]))
    && IsLetter(t[|t| - 1])
    && (exists p :: 1 <= p <= |t| - 2 && IsDigit(t[p]))
  }

  /** RE_GRID, `[A-Z][A-Z][0-9][0-9][A-Z]*`: two letters, two digits, then
      any number of letters. */
  predicate IsGrid(t: string) {
    && |t| >= 4
    && IsLetter(t[0]) && IsLetter(t[1]) && IsDigit(t[2]) && IsDigit(t[3])
    && (forall i :: 4 <= i < |t| ==> IsLetter(t[i]))
  }

  /** RE_RSSI, `[+-][1-9][0-9]*`: a mandatory sign, a non-zero digit, then
      digits. */
  predicate IsReport(t: string) {
    && |t| >= 2
    && (t[0] == '+' || t[0] == '-')
    && '1' <= t[1] <= '9'
    && (forall i :: 2 <= i < |t| ==> IsDigit(t[i]))
  }

  /** One token position of a stage pattern. `RReport` is `R` followed by a
      report; its capture group is the report without the `R`. */
  datatype Tok = Word(w: string) | Call | Grid | Report | RReport

  predicate Fits(k: Tok, t: string) {
    match k
    case Word(w) => t == w
    case Call => IsCall(t)
    case Grid => IsGrid(t)
    case Report => IsReport(t)
    case RReport => |t| >= 1 && t[0] == 'R' && IsReport(t[1..])
  }

  /** The token expressions on sample tokens: a callsign needs a digit after
      its first character and must end in a letter, a grid locator may carry
      extra letters, and a report needs its sign and no leading zero. */
  lemma TokenExamples()
    ensures IsCall("KD1ABC") && IsCall("W2XYZ") && IsCall("3DA0RU")
    ensures !IsCall("CQ") && !IsCall("1AB") && !IsCall("KD1AB2")
    ensures IsGrid("FN42") && IsGrid("FN42AB") && !IsGrid("F42") && !IsGrid("FN4A")
    ensures IsReport("-12") && IsReport("+5") && !IsReport("12") && !IsReport("+05")
  {
    assert IsDigit("KD1ABC"[2]) && IsDigit("W2XYZ"[1]) && IsDigit("3DA0RU"[3]);
    assert !IsDigit("1AB"[1]);
  }

  /** The patterns tried at stages 0 to 5: RE_CQ_MSG and RE_SEQ1_MSG to
      RE_SEQ5_MSG. */
  const Patterns: seq<seq<Tok>> := [
    [Word("CQ"), Call, Grid],
    [Call, Call, Grid],
    [Call, Call, Report],
    [Call, Call, RReport],
    [Call, Call, Word("RRR")],
    [Call, Call, Word("73")]
  ]

  /** Three pieces that fit a stage's tokens, written with single spaces
      between them, form a frame that stage's expression matches, with the
      pieces as its capture groups. */
  lemma StageFrameMatched(stage: nat, a: string, b: string, c: string)
    requires stage < |Patterns|
    requires Fits(Patterns[stage][0], a) && Fits(Patterns[stage][1], b) && Fits(Patterns[stage][2], c)
    ensures Match(a + " " + b + " " + c, Patterns[stage]) == Some([a, b, c])
  {
    PatternsSpaceFree(stage);
    Join3(a, b, c);
    assert a + " " + (b + " " + c) == a + " " + b + " " + c;
    MatchJoin(Patterns[stage], [a, b, c]);
  }

  /** The literal words of a pattern contain no whitespace. */
  predicate SpaceFreeWords(pat: seq<Tok>) {
    forall i :: 0 <= i < |pat| && pat[i].Word? ==> NoSpace(pat[i].w)
  }

  /** The regular language of a pattern: the tokens in order, each pair
      separated by exactly one whitespace character, nothing before or after
      (the `^` and `$` anchors). */
  ghost predicate Lang(s: string, pat: seq<Tok>)
    decreases |pat|
  {
    if |pat| == 0 then false
    else if |pat| == 1 then Fits(pat[0], s)
    else exists i :: 0 <= i < |s| && IsSpace(s[i]) && Fits(pat[0], s[..i]) && Lang(s[i + 1..], pat[1..])
  }

  /** `s` is the pieces `ts` joined by single whitespace characters. */
  ghost predicate Spaced(s: string, ts: seq<string>)
    decreases |ts|
  {
    if |ts| == 0 then false
    else if |ts| == 1 then s == ts[0]
    else
      && |ts[0]| < |s|
      && s[..|ts[0]|] == ts[0]
      && IsSpace(s[|ts[0]|])
      && Spaced(s[|ts[0]| + 1..], ts[1..])
  }

  /** Position of the first whitespace character, or |s| when there is none. */
  function SpaceIndex(s: string): (i: nat)
    ensures i <= |s|
    ensures i < |s| ==> IsSpace(s[i])
    ensures forall k :: 0 <= k < i ==> !IsSpace(s[k])
  {
    if |s| == 0 then 0
    else if IsSpace(s[0]) then 0
    else 1 + SpaceIndex(s[1..])
  }

  /** The pieces of `s` between whitespace characters (empty pieces kept). */
  function Split(s: string): (r: seq<string>)
    ensures |r| >= 1
    ensures forall k :: 0 <= k < |r| ==> NoSpace(r[k])
    decreases |s|
  {
    var i := SpaceIndex(s);
    if i == |s| then [s] else [s[..i]] + Split(s[i + 1..])
  }

  /** The pieces joined back with the whitespace between them give the frame. */
  lemma {:induction false} SplitSpaced(s: string)
    ensures Spaced(s, Split(s))
    decreases |s|
  {
    var i := SpaceIndex(s);
    var ts := Split(s);
    if i < |s| {
      var rest := Split(s[i + 1..]);
      SplitSpaced(s[i + 1..]);
      assert ts == [s[..i]] + rest;
      assert ts[0] == s[..i] && ts[1..] == rest && |ts| >= 2;
    } else {
      assert ts == [s];
    }
  }

  /** The matcher: the frame's whitespace-separated pieces, when there are as
      many as the pattern has tokens and each fits its token; these pieces are
      the capture groups of the source's expressions (for `RReport`, with the
      leading `R`). */
  function Match(s: string, pat: seq<Tok>): (r: Option<seq<string>>)
    ensures r.Some? ==> |r.value| == |pat| && forall k :: 0 <= k < |pat| ==> Fits(pat[k], r.value[k])
    ensures r.Some? ==> r.value == Split(s)
  {
    var ts := Split(s);
    if |ts| == |pat| && forall k :: 0 <= k < |pat| ==> Fits(pat[k], ts[k]) then Some(ts) else None
  }

  /** The pieces joined by single spaces, as a frame is written. */
  function Join(ts: seq<string>): string
    requires |ts| >= 1
  {
    if |ts| == 1 then ts[0] else ts[0] + " " + Join(ts[1..])
  }

  /** Three pieces joined: the shape of every stage frame. */
  lemma Join3(x: string, y: string, z: string)
    ensures Join([x, y, z]) == x + " " + (y + " " + z)
  {
    var ts := [x, y, z];
    assert ts[1..] == [y, z] && ts[1..][1..] == [z];
    assert Join(ts[1..][1..]) == z;
  }

  /** Joining pieces without lower-case letters gives a frame without them. */
  lemma {:induction false} JoinNoLower(ts: seq<string>)
    requires |ts| >= 1
    requires forall k :: 0 <= k < |ts| ==> NoLower(ts[k])
    ensures NoLower(Join(ts))
    decreases |ts|
  {
    if |ts| > 1 {
      JoinNoLower(ts[1..]);
      var a, b := ts[0], Join(ts[1..]);
      assert Join(ts) == a + " " + b;
      assert forall i :: |a| + 1 <= i < |Join(ts)| ==> Join(ts)[i] == b[i - |a| - 1];
    }
  }

  /** A token never contains whitespace. */
  lemma FitsNoSpace(k: Tok, t: string)
    requires Fits(k, t)
    requires k.Word? ==> NoSpace(k.w)
    ensures NoSpace(t)
  {
    if k.RReport? {
      assert forall i :: 1 <= i < |t| ==> t[i] == t[1..][i - 1];
    }
  }

  /** A token holds no lower-case letter. */
  lemma FitsNoLower(k: Tok, t: string)
    requires Fits(k, t)
    requires k.Word? ==> NoLower(k.w)
    ensures NoLower(t)
  {
    if k.RReport? {
      assert forall i :: 1 <= i < |t| ==> t[i] == t[1..][i - 1];
    }
  }

  lemma PatternsSpaceFree(stage: nat)
    requires stage < |Patterns|
    ensures |Patterns[stage]| == 3 && SpaceFreeWords(Patterns[stage])
    ensures forall i :: 0 <= i < 3 && Patterns[stage][i].Word? ==> NoLower(Patterns[stage][i].w)
  {
    var w := Patterns[stage];
    forall i | 0 <= i < |w| && w[i].Word?
      ensures NoSpace(w[i].w) && NoLower(w[i].w)
    {
      assert w[i].w in {"CQ", "RRR", "73"};
    }
  }

  /** The first whitespace character of `a + [c] + b`, when `a` has none and
      `c` is one, is `c`. */
  lemma SpaceIndexAfter(s: string, a: string)
    requires |a| < |s| && s[..|a|] == a && NoSpace(a) && IsSpace(s[|a|])
    ensures SpaceIndex(s) == |a|
  {
    assert forall k :: 0 <= k < |a| ==> s[k] == a[k];
  }

  /** Splitting undoes joining, when no piece holds whitespace. */
  lemma {:induction false} SplitJoin(ts: seq<string>)
    requires |ts| >= 1
    requires forall k :: 0 <= k < |ts| ==> NoSpace(ts[k])
    ensures Split(Join(ts)) == ts
    decreases |ts|
  {
    var s := Join(ts);
    if |ts| == 1 {
      assert SpaceIndex(s) == |s|;
    } else {
      var a := ts[0];
      assert s == a + " " + Join(ts[1..]);
      assert s[..|a|] == a;
      SpaceIndexAfter(s, a);
      assert s[|a| + 1..] == Join(ts[1..]);
      SplitJoin(ts[1..]);
      assert [a] + ts[1..] == ts;
    }
  }

  /** Split of a frame with a first whitespace character at `i`. */
  lemma SplitAt(s: string, i: nat)
    requires i < |s| && SpaceIndex(s) == i
    ensures Split(s) == [s[..i]] + Split(s[i + 1..])
  {
  }

  /** Every frame of the pattern's regular language is matched. */
  lemma {:induction false} LangMatched(s: string, pat: seq<Tok>)
    requires |pat| >= 1 && SpaceFreeWords(pat)
    requires Lang(s, pat)
    ensures Match(s, pat).Some?
    decreases |pat|
  {
    if |pat| == 1 {
      FitsNoSpace(pat[0], s);
      assert SpaceIndex(s) == |s|;
      assert Split(s) == [s];
    } else {
      var j :| 0 <= j < |s| && IsSpace(s[j]) && Fits(pat[0], s[..j]) && Lang(s[j + 1..], pat[1..]);
      SpaceFreeTail(pat);
      LangMatched(s[j + 1..], pat[1..]);
      FitsNoSpace(pat[0], s[..j]);
      MatchCons(s, pat, j);
    }
  }

  lemma SpaceFreeTail(pat: seq<Tok>)
    requires |pat| >= 1 && SpaceFreeWords(pat)
    ensures SpaceFreeWords(pat[1..])
  {
    forall k | 0 <= k < |pat| - 1 && pat[1..][k].Word?
      ensures NoSpace(pat[1..][k].w)
    {
      assert pat[1..][k] == pat[k + 1];
    }
  }

  /** A frame whose first piece, up to its first whitespace character, fits
      the first token and whose remainder is matched by the other tokens is
      matched by the whole pattern. */
  lemma MatchCons(s: string, pat: seq<Tok>, j: nat)
    requires |pat| >= 2 && j < |s| && IsSpace(s[j])
    requires NoSpace(s[..j]) && Fits(pat[0], s[..j])
    requires Match(s[j + 1..], pat[1..]).Some?
    ensures Match(s, pat).Some?
  {
    SpaceIndexAfter(s, s[..j]);
    SplitAt(s, j);
    var ts, rest := Split(s), Split(s[j + 1..]);
    assert ts == [s[..j]] + rest && ts[1..] == rest;
    FitsCons(pat, ts);
  }

  /** The pieces fit a pattern when the first fits the first token and the
      rest fit the rest. */
  lemma FitsCons(pat: seq<Tok>, ts: seq<string>)
    requires |pat| >= 2 && |ts| == |pat|
    requires Fits(pat[0], ts[0])
    requires forall k :: 0 <= k < |pat| - 1 ==> Fits(pat[1..][k], ts[1..][k])
    ensures forall k :: 0 <= k < |pat| ==> Fits(pat[k], ts[k])
  {
    forall k | 0 < k < |pat|
      ensures Fits(pat[k], ts[k])
    {
      assert pat[1..][k - 1] == pat[k] && ts[1..][k - 1] == ts[k];
    }
  }

  /** Every matched frame is in the pattern's regular language. */
  lemma {:induction false} MatchedLang(s: string, pat: seq<Tok>)
    requires |pat| >= 1
    requires Match(s, pat).Some?
    ensures Lang(s, pat)
    decreases |pat|
  {
    var ts := Split(s);
    var i := SpaceIndex(s);
    if |pat| == 1 {
      assert i == |s| by {
        if i < |s| {
          SplitAt(s, i);
        }
      }
      assert ts == [s];
    } else {
      var pat' := pat[1..];
      assert i < |s|;
      SplitAt(s, i);
      var rest := Split(s[i + 1..]);
      assert ts[0] == s[..i] && rest == ts[1..];
      forall k | 0 <= k < |pat'|
        ensures Fits(pat'[k], rest[k])
      {
        assert rest[k] == ts[k + 1] && pat'[k] == pat[k + 1];
      }
      assert Match(s[i + 1..], pat').Some?;
      MatchedLang(s[i + 1..], pat');
      assert IsSpace(s[i]) && Fits(pat[0], s[..i]) && Lang(s[i + 1..], pat');
    }
  }

  /** The matcher accepts exactly the frames in the regular language of the
      pattern: matching by splitting at whitespace is the same as matching the
      anchored expression. */
  lemma MatchIsRegex(s: string, pat: seq<Tok>)
    requires |pat| >= 1 && SpaceFreeWords(pat)
    ensures Match(s, pat).Some? <==> Lang(s, pat)
  {
    if Lang(s, pat) {
      LangMatched(s, pat);
    }
    if Match(s, pat).Some? {
      MatchedLang(s, pat);
    }
  }

  /** A frame written as the pieces of a pattern joined by single spaces is
      matched, and the matcher gives back exactly those pieces. */
  lemma MatchJoin(pat: seq<Tok>, ts: seq<string>)
    requires |pat| >= 1 && SpaceFreeWords(pat)
    requires |ts| == |pat| && forall k :: 0 <= k < |pat| ==> Fits(pat[k], ts[k])
    ensures Match(Join(ts), pat) == Some(ts)
  {
    forall k | 0 <= k < |ts|
      ensures NoSpace(ts[k])
    {
      FitsNoSpace(pat[k], ts[k]);
    }
    SplitJoin(ts);
  }

  /** The last tokens of stages 1 to 5 exclude each other. */
  lemma LastTokensDisjoint(a: Tok, b: Tok, t: string)
    requires a in [Grid, Report, RReport, Word("RRR"), Word("73")]
    requires b in [Grid, Report, RReport, Word("RRR"), Word("73")]
    requires a != b
    ensures !(Fits(a, t) && Fits(b, t))
  {
    if |t| >= 1 && t[0] == 'R' {
      assert !IsReport(t);
    }
  }

  /** No frame fits two stage patterns: the six stages are told apart by their
      tokens alone, so trying only the expected stage's pattern never turns
      away a frame that another pattern would have taken for the same stage. */
  lemma PatternsDisjoint(i: nat, j: nat, s: string)
    requires i < |Patterns| && j < |Patterns| && i != j
    ensures Match(s, Patterns[i]).None? || Match(s, Patterns[j]).None?
  {
    var ts := Split(s);
    if |ts| == 3 {
      if i != 0 && j != 0 {
        LastTokensDisjoint(Patterns[i][2], Patterns[j][2], ts[2]);
      } else {
        // stage 0 opens with the word CQ, every other stage with a callsign
        var k := if i == 0 then j else i;
        assert Patterns[0][0] == Word("CQ") && Patterns[k][0] == Call;
        assert !IsCall("CQ");
      }
    }
  }
}
