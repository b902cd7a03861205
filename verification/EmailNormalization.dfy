/** What the normalisers of `CanonicalEmail` make of any input at all, said without them: each is the only
    function with the laws proved here (src/eva_ai/actions/canonical.py). */
module EmailNormalization {
  import opened Wrappers
  import opened CanonicalEmail

  predicate AllSpaces(s: string) {
    forall i :: 0 <= i < |s| ==> IsSpace(s[i])
  }

  // ----- Trimming --------------------------------------------------------------------------------------

  /** `t` is what is left of `s` between its outer whitespace. */
  ghost predicate Trims(s: string, t: string) {
    Trimmed(t) && exists i: nat, j: nat :: CutsAt(s, i, j, t)
  }

  predicate CutsAt(s: string, i: nat, j: nat, t: string) {
    i <= j <= |s| && s[i..j] == t && AllSpaces(s[..i]) && AllSpaces(s[j..])
  }

  lemma {:induction false} StripLeftCuts(s: string) returns (i: nat)
    ensures i <= |s| && StripLeft(s) == s[i..] && AllSpaces(s[..i])
  {
    if s == "" || !IsSpace(s[0]) {
      i := 0;
    } else {
      var k := StripLeftCuts(s[1..]);
      i := k + 1;
      assert s[1..][k..] == s[i..];
      assert forall j :: 0 < j < i ==> s[..i][j] == s[1..][..k][j - 1];
    }
  }

  lemma {:induction false} StripRightCuts(s: string) returns (j: nat)
    ensures j <= |s| && StripRight(s) == s[..j] && AllSpaces(s[j..])
  {
    if s == "" || !IsSpace(s[|s| - 1]) {
      j := |s|;
    } else {
      j := StripRightCuts(s[..|s| - 1]);
      assert s[..|s| - 1][..j] == s[..j];
      assert s[j..] == s[..|s| - 1][j..] + [s[|s| - 1]];
    }
  }

  lemma StripTrimsIt(s: string)
    ensures Trims(s, Strip(s))
  {
    var i := StripLeftCuts(s);
    var j := StripRightCuts(s[i..]);
    StripTrims(s);
    assert s[i..][..j] == s[i..i + j] && s[i..][j..] == s[i + j..];
    assert CutsAt(s, i, i + j, Strip(s));
  }

  /** There is one such slice only. */
  lemma TrimsIsStrip(s: string, t: string)
    ensures Trims(s, t) <==> t == Strip(s)
  {
    StripTrimsIt(s);
    if Trims(s, t) {
      OneTrim(s, t, Strip(s));
    }
  }

  lemma InnerLetter(s: string, i: nat, j: nat, t: string, x: nat)
    requires CutsAt(s, i, j, t) && x < |s| && !IsSpace(s[x])
    ensures i <= x < j
  {
  }

  lemma OneCut(s: string, i: nat, j: nat, t: string, k: nat, l: nat, u: string)
    requires CutsAt(s, i, j, t) && Trimmed(t) && t != "" && CutsAt(s, k, l, u) && Trimmed(u) && u != ""
    ensures i == k && j == l
  {
    assert t[0] == s[i] && t[|t| - 1] == s[j - 1];
    InnerLetter(s, k, l, u, i);
    InnerLetter(s, k, l, u, j - 1);
    assert u[0] == s[k] && u[|u| - 1] == s[l - 1];
    InnerLetter(s, i, j, t, k);
    InnerLetter(s, i, j, t, l - 1);
  }

  lemma TrimIsBlank(s: string, t: string)
    requires Trims(s, t)
    ensures t == "" <==> AllSpaces(s)
  {
    var i: nat, j: nat :| CutsAt(s, i, j, t);
    if t != "" {
      assert t[0] == s[i];
    } else {
      forall x | 0 <= x < |s|
        ensures IsSpace(s[x])
      {
        if !IsSpace(s[x]) {
          InnerLetter(s, i, j, t, x);
        }
      }
    }
  }

  lemma OneTrim(s: string, t: string, u: string)
    requires Trims(s, t) && Trims(s, u)
    ensures t == u
  {
    TrimIsBlank(s, t);
    TrimIsBlank(s, u);
    if t != "" {
      var i: nat, j: nat :| CutsAt(s, i, j, t);
      var k: nat, l: nat :| CutsAt(s, k, l, u);
      OneCut(s, i, j, t, k, l, u);
    }
  }

  /** An optional field is kept as its trimmed text, or absent if there is nothing else in it. */
  lemma StripOptionalTrims(o: Option<string>)
    ensures StripOptional(o).Some? <==> o.Some? && !AllSpaces(o.value)
    ensures StripOptional(o).Some? ==> Trims(o.value, StripOptional(o).value)
  {
    if o.Some? {
      StripTrimsIt(o.value);
      BlankTrims(o.value);
    }
  }

  lemma BlankTrims(s: string)
    ensures Strip(s) == "" <==> AllSpaces(s)
  {
    StripTrimsIt(s);
    TrimIsBlank(s, Strip(s));
  }

  /** References are trimmed one by one, in order, and blank ones dropped. */
  lemma {:induction false} ReferencesAreTrimmed(rs: seq<string>, r: string)
    ensures References([]) == []
    ensures References(rs + [r]) == References(rs) + (if AllSpaces(r) then [] else [Strip(r)])
  {
    BlankTrims(r);
    if rs == [] {
      assert [] + [r] == [r] && [r][1..] == [];
    } else {
      assert (rs + [r])[0] == rs[0] && (rs + [r])[1..] == rs[1..] + [r];
      ReferencesAreTrimmed(rs[1..], r);
    }
  }

  // ----- Line breaks -----------------------------------------------------------------------------------

  /** A body before its outer whitespace is cut. */
  function Folded(s: string): string {
    FoldCr(FoldCrLf(s))
  }

  lemma {:induction false} FoldCrJoins(a: string, b: string)
    ensures FoldCr(a + b) == FoldCr(a) + FoldCr(b)
  {
    if a == "" {
      assert a + b == b;
    } else {
      assert (a + b)[0] == a[0] && (a + b)[1..] == a[1..] + b;
      FoldCrJoins(a[1..], b);
    }
  }

  lemma FoldPair(s: string, rest: string)
    requires s == "\r\n" + rest
    ensures FoldCrLf(s) == "\n" + FoldCrLf(rest)
  {
    assert s[2..] == rest;
  }

  lemma FoldOne(s: string, c: char, rest: string)
    requires s == [c] + rest && (c != '\r' || rest == "" || rest[0] != '\n')
    ensures FoldCrLf(s) == [c] + FoldCrLf(rest)
  {
    assert s[1..] == rest;
    assert rest != "" ==> s[1] == rest[0];
  }

  /** Where no "\r\n" is torn apart, the parts can be folded on their own. */
  lemma {:induction false} FoldCrLfJoins(a: string, b: string)
    requires a == "" || b == "" || a[|a| - 1] != '\r' || b[0] != '\n'
    ensures FoldCrLf(a + b) == FoldCrLf(a) + FoldCrLf(b)
    decreases |a|
  {
    if a == "" {
      assert a + b == b;
    } else if |a| >= 2 && a[0] == '\r' && a[1] == '\n' {
      var rest := a[2..];
      assert a == "\r\n" + rest && a + b == "\r\n" + (rest + b);
      FoldPair(a, rest);
      FoldPair(a + b, rest + b);
      FoldCrLfJoins(rest, b);
    } else {
      var rest := a[1..];
      assert a == [a[0]] + rest && a + b == [a[0]] + (rest + b);
      FoldOne(a, a[0], rest);
      FoldOne(a + b, a[0], rest + b);
      FoldCrLfJoins(rest, b);
    }
  }

  lemma FoldedJoins(a: string, b: string)
    requires a == "" || b == "" || a[|a| - 1] != '\r' || b[0] != '\n'
    ensures Folded(a + b) == Folded(a) + Folded(b)
  {
    FoldCrLfJoins(a, b);
    FoldCrJoins(FoldCrLf(a), FoldCrLf(b));
  }

  /** Every "\r\n" and every other "\r" becomes exactly one "\n", wherever it stands, and text without a
      "\r" stays as it is. Cutting a text at its carriage returns, these laws leave no choice. */
  lemma BreaksAreFolded(a: string, b: string)
    ensures Folded(a + "\r\n" + b) == Folded(a) + "\n" + Folded(b)
    ensures b == "" || b[0] != '\n' ==> Folded(a + "\r" + b) == Folded(a) + "\n" + Folded(b)
    ensures '\r' !in a ==> Folded(a) == a
  {
    assert "\r\n"[2..] == "" && FoldCrLf("\r\n") == "\n" + "";
    assert "\r"[1..] == "" && "\n"[1..] == "";
    assert Folded("\r\n") == "\n" && Folded("\r") == "\n";
    FoldedJoins(a, "\r\n");
    FoldedJoins(a + "\r\n", b);
    FoldedJoins(a, "\r");
    if b == "" || b[0] != '\n' {
      FoldedJoins(a + "\r", b);
    }
    if '\r' !in a {
      FoldCrLfKeeps(a);
      FoldCrFolds(a);
    }
  }

  /** The text of `s` without its line breaks. */
  function Letters(s: string): string {
    if s == "" then "" else (if s[0] == '\r' || s[0] == '\n' then "" else [s[0]]) + Letters(s[1..])
  }

  lemma {:induction false} LettersJoin(a: string, b: string)
    ensures Letters(a + b) == Letters(a) + Letters(b)
  {
    if a == "" {
      assert a + b == b;
    } else {
      assert (a + b)[0] == a[0] && (a + b)[1..] == a[1..] + b;
      LettersJoin(a[1..], b);
    }
  }

  lemma {:induction false} FoldCrKeepsLetters(s: string)
    ensures Letters(FoldCr(s)) == Letters(s)
  {
    if s != "" {
      var c := if s[0] == '\r' then '\n' else s[0];
      assert FoldCr(s)[1..] == FoldCr(s[1..]) && FoldCr(s)[0] == c;
      FoldCrKeepsLetters(s[1..]);
    }
  }

  lemma {:induction false} FoldCrLfKeepsLetters(s: string)
    ensures Letters(FoldCrLf(s)) == Letters(s)
    decreases |s|
  {
    if |s| >= 2 {
      if s[0] == '\r' && s[1] == '\n' {
        assert s[1..][0] == s[1] && s[1..][1..] == s[2..];
        assert FoldCrLf(s)[1..] == FoldCrLf(s[2..]) && FoldCrLf(s)[0] == '\n';
        FoldCrLfKeepsLetters(s[2..]);
      } else {
        assert FoldCrLf(s)[1..] == FoldCrLf(s[1..]) && FoldCrLf(s)[0] == s[0];
        FoldCrLfKeepsLetters(s[1..]);
      }
    }
  }

  /** A body is its folded text between outer whitespace; folding loses and moves no other character. */
  lemma BodyIsFoldedAndTrimmed(s: string, t: string)
    ensures t == Body(s) <==> Trims(Folded(s), t)
    ensures Letters(Folded(s)) == Letters(s)
    ensures Body(s) == "" <==> AllSpaces(s)
  {
    TrimsIsStrip(Folded(s), t);
    FoldCrKeepsLetters(FoldCrLf(s));
    FoldCrLfKeepsLetters(s);
    BlankTrims(Folded(s));
    FoldedSpaces(s);
  }

  lemma {:induction false} FoldCrSpaces(s: string)
    ensures AllSpaces(FoldCr(s)) <==> AllSpaces(s)
  {
    if s != "" {
      assert FoldCr(s)[1..] == FoldCr(s[1..]);
      FoldCrSpaces(s[1..]);
      SpacesSplit(s);
      SpacesSplit(FoldCr(s));
    }
  }

  lemma SpacesSplit(s: string)
    requires s != ""
    ensures AllSpaces(s) <==> IsSpace(s[0]) && AllSpaces(s[1..])
  {
    assert forall i :: 0 < i < |s| ==> s[i] == s[1..][i - 1];
  }

  lemma {:induction false} FoldCrLfSpaces(s: string)
    ensures AllSpaces(FoldCrLf(s)) <==> AllSpaces(s)
    decreases |s|
  {
    if |s| >= 2 {
      SpacesSplit(s);
      SpacesSplit(FoldCrLf(s));
      if s[0] == '\r' && s[1] == '\n' {
        assert s[1..][1..] == s[2..];
        assert FoldCrLf(s)[1..] == FoldCrLf(s[2..]);
        SpacesSplit(s[1..]);
        FoldCrLfSpaces(s[2..]);
      } else {
        assert FoldCrLf(s)[1..] == FoldCrLf(s[1..]);
        FoldCrLfSpaces(s[1..]);
      }
    }
  }

  lemma FoldedSpaces(s: string)
    ensures AllSpaces(Folded(s)) <==> AllSpaces(s)
  {
    FoldCrSpaces(FoldCrLf(s));
    FoldCrLfSpaces(s);
  }

  // ----- Single lines ------------------------------------------------------------------------------------

  lemma {:induction false} WordsOfSpaces(s: string)
    requires AllSpaces(s)
    ensures Words(s) == []
    decreases |s|
  {
    if s != "" {
      SpacesSplit(s);
      WordsOfSpaces(s[1..]);
    }
  }

  lemma {:induction false} SomeWords(s: string)
    requires !AllSpaces(s)
    ensures Words(s) != []
    decreases |s|
  {
    if IsSpace(s[0]) {
      SpacesSplit(s);
      SomeWords(s[1..]);
    }
  }

  lemma {:induction false} WordLengthBefore(a: string, b: string)
    requires b == "" || IsSpace(b[0])
    ensures WordLength(a + b) == WordLength(a)
  {
    if a == "" {
      assert a + b == b;
    } else if !IsSpace(a[0]) {
      assert (a + b)[1..] == a[1..] + b;
      WordLengthBefore(a[1..], b);
    }
  }

  /** Where no word is torn apart, the parts can be split on their own. */
  lemma {:induction false} WordsJoin(a: string, b: string)
    requires b == "" || IsSpace(b[0])
    ensures Words(a + b) == Words(a) + Words(b)
    decreases |a|
  {
    if a == "" {
      assert a + b == b;
    } else if IsSpace(a[0]) {
      assert (a + b)[1..] == a[1..] + b;
      WordsJoin(a[1..], b);
    } else {
      var k := WordLength(a);
      WordLengthBefore(a, b);
      assert (a + b)[..k] == a[..k] && (a + b)[k..] == a[k..] + b;
      WordsJoin(a[k..], b);
    }
  }

  lemma {:induction false} JoinJoins(xs: seq<string>, ys: seq<string>)
    requires xs != [] && ys != []
    ensures Join(xs + ys) == Join(xs) + " " + Join(ys)
  {
    assert (xs + ys)[1..] == xs[1..] + ys;
    if |xs| > 1 {
      JoinJoins(xs[1..], ys);
    } else {
      assert xs[1..] + ys == ys;
    }
  }

  lemma WordsOfWord(w: string)
    requires Word(w)
    ensures Words(w) == [w]
  {
    assert w + "" == w;
    WordLengthOfWord(w, "");
    assert w[..|w|] == w && w[|w|..] == "";
  }

  lemma {:induction false} WordsSkipSpaces(gap: string, b: string)
    requires AllSpaces(gap)
    ensures Words(gap + b) == Words(b)
    decreases |gap|
  {
    if gap == "" {
      assert gap + b == b;
    } else {
      SpacesSplit(gap);
      assert (gap + b)[1..] == gap[1..] + b;
      WordsSkipSpaces(gap[1..], b);
    }
  }

  /** A subject is its words in order with one space between two: a word stays, whitespace at either end goes,
      and a run of it between words becomes one space. Cutting a text at its runs of whitespace, these laws
      leave no choice. */
  lemma RunsBecomeOneSpace(a: string, gap: string, b: string)
    requires gap != "" && AllSpaces(gap)
    ensures SingleLine(a + gap + b) == if AllSpaces(a) then SingleLine(b)
                                       else if AllSpaces(b) then SingleLine(a)
                                       else SingleLine(a) + " " + SingleLine(b)
    ensures Word(a) ==> SingleLine(a) == a
    ensures SingleLine(a) == "" <==> AllSpaces(a)
  {
    assert (a + gap) + b == a + (gap + b);
    WordsJoin(a, gap + b);
    WordsSkipSpaces(gap, b);
    BlankLine(a);
    BlankLine(b);
    if Word(a) {
      WordsOfWord(a);
    }
    if AllSpaces(a) {
      assert [] + Words(b) == Words(b);
    } else if AllSpaces(b) {
      assert Words(a) + [] == Words(a);
    } else {
      JoinJoins(Words(a), Words(b));
    }
  }

  lemma BlankLine(s: string)
    ensures AllSpaces(s) <==> Words(s) == []
    ensures AllSpaces(s) <==> SingleLine(s) == ""
  {
    SplitYieldsWords(s);
    JoinIsSingleSpaced(Words(s));
    if AllSpaces(s) {
      WordsOfSpaces(s);
    } else {
      SomeWords(s);
    }
  }

  // ----- Validation ----------------------------------------------------------------------------------------

  /** Something is left of the optional field. */
  predicate Present(o: Option<string>) {
    o.Some? && !AllSpaces(o.value)
  }

  /** No reference has anything in it. */
  predicate NoReference(rs: seq<string>) {
    forall i :: 0 <= i < |rs| ==> AllSpaces(rs[i])
  }

  lemma {:induction false} NoReferenceIsDropped(rs: seq<string>)
    ensures References(rs) == [] <==> NoReference(rs)
  {
    if rs != [] {
      BlankTrims(rs[0]);
      NoReferenceIsDropped(rs[1..]);
      assert forall i :: 0 < i < |rs| ==> rs[i] == rs[1..][i - 1];
    }
  }

  /** What an email must be for validation to accept it, apart from the lengths. */
  predicate Sendable(n: AddressNormalizer, e: Email) {
    && !Refused(n, e.to) && !Refused(n, e.cc) && !Refused(n, e.bcc)
    && (e.to != [] || e.cc != [] || e.bcc != [])
    && !AllSpaces(e.subject) && !AllSpaces(e.textBody) && e.attachments == []
    && if e.mode.Reply? then Present(e.threadId) && Present(e.inReplyTo)
       else !Present(e.threadId) && !Present(e.inReplyTo) && NoReference(e.references)
  }

  predicate Within(o: Option<string>, max: nat) {
    o.Some? ==> |o.value| <= max
  }

  /** The limits, on the fields as normalised. */
  predicate Fits(e: Email) {
    && |SingleLine(e.subject)| <= 998 && |Body(e.textBody)| <= 100_000
    && Within(StripOptional(e.htmlBody), 200_000) && Within(StripOptional(e.threadId), 500)
    && Within(StripOptional(e.inReplyTo), 998) && |References(e.references)| <= 100
  }

  /** Validation refuses exactly what is not sendable or too long, ... */
  lemma AcceptedIffSendable(n: AddressNormalizer, e: Email)
    ensures Validate(n, e).Success? <==> Sendable(n, e) && Fits(e)
  {
    RecipientsAreFirst(n, e.to);
    RecipientsAreFirst(n, e.cc);
    RecipientsAreFirst(n, e.bcc);
    BlankLine(e.subject);
    BodyIsFoldedAndTrimmed(e.textBody, Body(e.textBody));
    StripOptionalTrims(e.threadId);
    StripOptionalTrims(e.inReplyTo);
    NoReferenceIsDropped(e.references);
  }

  /** ... and of the rest keeps mode and each list of recipients by first occurrences, and normalises every text as
      described above. */
  lemma AcceptedIsNormalized(n: AddressNormalizer, e: Email)
    requires Validate(n, e).Success?
    ensures var m := Validate(n, e).value;
            && m.mode == e.mode && m.attachments == []
            && FirstOccurrences(n, e.to, m.to) && FirstOccurrences(n, e.cc, m.cc) && FirstOccurrences(n, e.bcc, m.bcc)
            && m.subject == SingleLine(e.subject) && Trims(Folded(e.textBody), m.textBody)
            && m.htmlBody == StripOptional(e.htmlBody) && m.threadId == StripOptional(e.threadId)
            && m.inReplyTo == StripOptional(e.inReplyTo) && m.references == References(e.references)
  {
    RecipientsAreGathered(n, e.to);
    RecipientsAreGathered(n, e.cc);
    RecipientsAreGathered(n, e.bcc);
    TrimsIsStrip(Folded(e.textBody), Body(e.textBody));
  }

  lemma RecipientsAreFirst(n: AddressNormalizer, values: seq<string>)
    ensures Recipients(n, values, []).Failure? <==> Refused(n, values)
    ensures Recipients(n, values, []).Success? ==>
              var r := Recipients(n, values, []).value;
              FirstOccurrences(n, values, r) && (r == [] <==> values == [])
  {
    RecipientsAreGathered(n, values);
    if values != [] && !Refused(n, values) {
      assert n(values[0]) != None && Occurs(n, values, n(values[0]).value);
    }
  }
}
