/** The normalised email an approval authorises (src/eva_ai/actions/canonical.py).

    `email.utils.parseaddr` and the address pattern are library behaviour: together they appear as
    one function `n` from a raw recipient to its normalised address, or `None` when the recipient is
    refused. The only thing assumed about it is `Idempotent`: an address it produced is left alone. */
module CanonicalEmail {
  import opened Wrappers

  type AddressNormalizer = string -> Option<string>

  datatype Mode = New | Reply

  datatype Email = Email(
    mode: Mode,
    to: seq<string>,
    cc: seq<string>,
    bcc: seq<string>,
    subject: string,
    textBody: string,
    htmlBody: Option<string>,
    threadId: Option<string>,
    inReplyTo: Option<string>,
    references: seq<string>,
    attachments: seq<string>)

  /** SHA-256 over the sorted JSON dump, treated as injective. */
  datatype Digest = Sha256(payload: Email)

  datatype Invalid = Invalid

  ghost predicate Idempotent(n: AddressNormalizer) {
    forall s: string :: n(s).Some? ==> n(n(s).value) == n(s)
  }

  // ----- Character-level normalisers ---------------------------------------------------------

  /** The characters Python's `str.split()` and `str.strip()` treat as whitespace. */
  predicate IsSpace(c: char) {
    || '\t' <= c <= '\r'
    || '\U{1c}' <= c <= ' '
    || c == '\U{85}' || c == '\U{a0}' || c == '\U{1680}'
    || '\U{2000}' <= c <= '\U{200a}'
    || c == '\U{2028}' || c == '\U{2029}' || c == '\U{202f}' || c == '\U{205f}' || c == '\U{3000}'
  }

  function StripLeft(s: string): string {
    if s == "" || !IsSpace(s[0]) then s else StripLeft(s[1..])
  }

  function StripRight(s: string): string {
    if s == "" || !IsSpace(s[|s| - 1]) then s else StripRight(s[..|s| - 1])
  }

  /** `value.strip()` */
  function Strip(s: string): string {
    StripRight(StripLeft(s))
  }

  predicate Trimmed(s: string) {
    s == "" || (!IsSpace(s[0]) && !IsSpace(s[|s| - 1]))
  }

  lemma {:induction false} StripLeftTrims(s: string)
    ensures StripLeft(s) == "" || !IsSpace(StripLeft(s)[0])
    ensures forall c :: c in StripLeft(s) ==> c in s
  {
    if s != "" && IsSpace(s[0]) {
      StripLeftTrims(s[1..]);
    }
  }

  lemma {:induction false} StripRightTrims(s: string)
    ensures StripRight(s) <= s
    ensures StripRight(s) == "" || !IsSpace(StripRight(s)[|StripRight(s)| - 1])
  {
    if s != "" && IsSpace(s[|s| - 1]) {
      StripRightTrims(s[..|s| - 1]);
    }
  }

  lemma StripTrims(s: string)
    ensures Trimmed(Strip(s))
    ensures forall c :: c in Strip(s) ==> c in s
  {
    StripLeftTrims(s);
    StripRightTrims(StripLeft(s));
  }

  lemma StripKeepsTrimmed(s: string)
    requires Trimmed(s)
    ensures Strip(s) == s
  {
  }

  /** Length of the leading run of non-space characters. */
  function WordLength(s: string): (k: nat)
    ensures k <= |s|
  {
    if s == "" || IsSpace(s[0]) then 0 else 1 + WordLength(s[1..])
  }

  lemma {:induction false} WordLengthIsMaximal(s: string)
    ensures forall i :: 0 <= i < WordLength(s) ==> !IsSpace(s[i])
    ensures WordLength(s) < |s| ==> IsSpace(s[WordLength(s)])
  {
    if s != "" && !IsSpace(s[0]) {
      WordLengthIsMaximal(s[1..]);
    }
  }

  /** `value.split()`: the maximal runs of non-space characters, in order. */
  function Words(s: string): seq<string>
    decreases |s|
  {
    if s == "" then []
    else if IsSpace(s[0]) then Words(s[1..])
    else
      var k := WordLength(s);
      [s[..k]] + Words(s[k..])
  }

  predicate Word(w: string) {
    w != "" && forall i :: 0 <= i < |w| ==> !IsSpace(w[i])
  }

  predicate AllWords(ws: seq<string>) {
    forall i :: 0 <= i < |ws| ==> Word(ws[i])
  }

  lemma {:induction false} SplitYieldsWords(s: string)
    ensures AllWords(Words(s))
    decreases |s|
  {
    if s == "" {
    } else if IsSpace(s[0]) {
      SplitYieldsWords(s[1..]);
    } else {
      var k := WordLength(s);
      WordLengthIsMaximal(s);
      assert Word(s[..k]);
      SplitYieldsWords(s[k..]);
    }
  }

  /** `" ".join(words)` */
  function Join(ws: seq<string>): string {
    if ws == [] then ""
    else if |ws| == 1 then ws[0]
    else ws[0] + " " + Join(ws[1..])
  }

  /** `" ".join(value.split())` */
  function SingleLine(s: string): string {
    Join(Words(s))
  }

  /** Independent description of the result: no outer space, and inside only single U+0020. */
  predicate SingleSpaced(s: string) {
    && Trimmed(s)
    && forall i :: 0 < i < |s| - 1 && IsSpace(s[i]) ==> s[i] == ' ' && !IsSpace(s[i + 1])
  }

  lemma {:induction false} WordLengthOfWord(w: string, rest: string)
    requires Word(w)
    requires rest == "" || IsSpace(rest[0])
    ensures WordLength(w + rest) == |w|
  {
    assert (w + rest)[1..] == w[1..] + rest;
    if |w| == 1 {
      assert (w + rest)[1..] == rest;
    } else {
      WordLengthOfWord(w[1..], rest);
    }
  }

  /** Joining words with one space and splitting again gives the words back. */
  lemma {:induction false} WordsOfJoin(ws: seq<string>)
    requires AllWords(ws)
    ensures Words(Join(ws)) == ws
  {
    if ws != [] {
      var w := ws[0];
      var rest := if |ws| == 1 then "" else " " + Join(ws[1..]);
      assert Join(ws) == w + rest;
      WordLengthOfWord(w, rest);
      assert (w + rest)[..|w|] == w && (w + rest)[|w|..] == rest && (w + rest)[0] == w[0];
      if |ws| > 1 {
        WordsOfJoin(ws[1..]);
        assert rest[1..] == Join(ws[1..]);
      }
    }
  }

  lemma {:induction false} JoinIsSingleSpaced(ws: seq<string>)
    requires AllWords(ws)
    ensures SingleSpaced(Join(ws))
    ensures Join(ws) == "" <==> ws == []
  {
    if |ws| > 1 {
      var w, tail := ws[0], Join(ws[1..]);
      JoinIsSingleSpaced(ws[1..]);
      PrependWord(w, tail);
    }
  }

  lemma PrependWord(w: string, tail: string)
    requires Word(w) && tail != "" && SingleSpaced(tail)
    ensures SingleSpaced(w + " " + tail)
  {
    var s := w + " " + tail;
    assert forall i :: 0 <= i < |w| ==> s[i] == w[i];
    assert forall i :: 0 <= i < |tail| ==> s[|w| + 1 + i] == tail[i];
    forall i | 0 < i < |s| - 1 && IsSpace(s[i])
      ensures s[i] == ' ' && !IsSpace(s[i + 1])
    {
      if i > |w| {
        var j := i - |w| - 1;
        assert s[i] == tail[j] && s[i + 1] == tail[j + 1];
      } else {
        assert i == |w|;
        assert s[i + 1] == tail[0];
      }
    }
  }

  /** What follows the first word and its space is single-spaced too. */
  lemma TailIsSingleSpaced(s: string, k: nat)
    requires SingleSpaced(s) && 0 < k < |s| && IsSpace(s[k])
    ensures k + 1 < |s| && s[k] == ' ' && SingleSpaced(s[k + 1..])
  {
    var tail := s[k + 1..];
    assert s[k] == ' ' && tail[0] == s[k + 1];
    forall i | 0 < i < |tail| - 1 && IsSpace(tail[i])
      ensures tail[i] == ' ' && !IsSpace(tail[i + 1])
    {
      assert tail[i] == s[k + 1 + i] && tail[i + 1] == s[k + 1 + i + 1];
    }
  }

  lemma WordsOfTail(s: string, k: nat)
    requires k + 1 < |s| && k > 0 && k == WordLength(s) && !IsSpace(s[0]) && IsSpace(s[k]) && !IsSpace(s[k + 1])
    ensures Words(s) == [s[..k]] + Words(s[k + 1..])
  {
    assert s[k..][0] == s[k] && s[k..][1..] == s[k + 1..];
  }

  lemma {:induction false} SingleSpacedIsFixed(s: string)
    requires SingleSpaced(s)
    ensures SingleLine(s) == s
    decreases |s|
  {
    if s != "" {
      var k := WordLength(s);
      WordLengthIsMaximal(s);
      if k == |s| {
        assert s[..k] == s && Words(s[k..]) == [];
      } else {
        var tail := s[k + 1..];
        TailIsSingleSpaced(s, k);
        assert tail[0] == s[k + 1];
        SingleSpacedIsFixed(tail);
        WordsOfTail(s, k);
        assert Words(s)[1..] == Words(tail);
        assert s == s[..k] + " " + tail;
      }
    }
  }

  /** `value.replace("\r\n", "\n")` */
  function FoldCrLf(s: string): string {
    if |s| < 2 then s
    else if s[0] == '\r' && s[1] == '\n' then "\n" + FoldCrLf(s[2..])
    else [s[0]] + FoldCrLf(s[1..])
  }

  /** `value.replace("\r", "\n")` */
  function FoldCr(s: string): string {
    if s == "" then ""
    else [if s[0] == '\r' then '\n' else s[0]] + FoldCr(s[1..])
  }

  lemma {:induction false} FoldCrFolds(s: string)
    ensures '\r' !in FoldCr(s)
    ensures '\r' !in s ==> FoldCr(s) == s
  {
    if s != "" {
      FoldCrFolds(s[1..]);
    }
  }

  lemma {:induction false} FoldCrLfKeeps(s: string)
    requires '\r' !in s
    ensures FoldCrLf(s) == s
  {
    if |s| >= 2 {
      FoldCrLfKeeps(s[1..]);
    }
  }

  function Body(s: string): string {
    Strip(FoldCr(FoldCrLf(s)))
  }

  lemma BodyIsSettled(s: string)
    ensures Trimmed(Body(s)) && '\r' !in Body(s)
  {
    FoldCrFolds(FoldCrLf(s));
    StripTrims(FoldCr(FoldCrLf(s)));
  }

  lemma SettledBodyIsFixed(s: string)
    requires Trimmed(s) && '\r' !in s
    ensures Body(s) == s
  {
    FoldCrLfKeeps(s);
    FoldCrFolds(s);
    StripKeepsTrimmed(s);
  }

  /** `value.strip() or None` */
  function StripOptional(o: Option<string>): Option<string> {
    match o
    case None => None
    case Some(s) => if Strip(s) == "" then None else Some(Strip(s))
  }

  predicate PresentAndTrimmed(o: Option<string>) {
    o.Some? ==> o.value != "" && Trimmed(o.value)
  }

  lemma StripOptionalSettles(o: Option<string>)
    ensures PresentAndTrimmed(StripOptional(o))
    ensures PresentAndTrimmed(o) <==> StripOptional(o) == o
  {
    if o.Some? {
      StripTrims(o.value);
      if Trimmed(o.value) {
        StripKeepsTrimmed(o.value);
      }
    }
  }

  /** `tuple(item.strip() for item in value if item.strip())` */
  function References(rs: seq<string>): seq<string> {
    if rs == [] then []
    else (if Strip(rs[0]) == "" then [] else [Strip(rs[0])]) + References(rs[1..])
  }

  predicate CleanReferences(rs: seq<string>) {
    forall i :: 0 <= i < |rs| ==> rs[i] != "" && Trimmed(rs[i])
  }

  lemma {:induction false} ReferencesSettle(rs: seq<string>)
    ensures CleanReferences(References(rs))
  {
    if rs != [] {
      StripTrims(rs[0]);
      ReferencesSettle(rs[1..]);
    }
  }

  lemma {:induction false} CleanReferencesAreFixed(rs: seq<string>)
    requires CleanReferences(rs)
    ensures References(rs) == rs
  {
    if rs != [] {
      StripKeepsTrimmed(rs[0]);
      CleanReferencesAreFixed(rs[1..]);
    }
  }

  // ----- Recipients ----------------------------------------------------------------------------

  /** First-occurrence deduplication of the normalised recipients after `kept`. */
  function Recipients(n: AddressNormalizer, values: seq<string>, kept: seq<string>): Result<seq<string>, Invalid> {
    if values == [] then Success(kept)
    else match n(values[0])
      case None => Failure(Invalid)
      case Some(a) => Recipients(n, values[1..], if a in kept then kept else kept + [a])
  }

  predicate Distinct<T(==)>(s: seq<T>) {
    forall i, j :: 0 <= i < j < |s| ==> s[i] != s[j]
  }

  /** Every recipient is its own normal form and none is repeated. */
  predicate CleanRecipients(n: AddressNormalizer, s: seq<string>) {
    Distinct(s) && forall i :: 0 <= i < |s| ==> n(s[i]) == Some(s[i])
  }

  /** `a` occurs among the normalised `values` before `b` does. */
  predicate Before(n: AddressNormalizer, values: seq<string>, a: string, b: string) {
    exists i :: 0 <= i < |values| && n(values[i]) == Some(a) && !Occurs(n, values[..i + 1], b)
  }

  predicate Occurs(n: AddressNormalizer, values: seq<string>, a: string) {
    exists i :: 0 <= i < |values| && n(values[i]) == Some(a)
  }

  predicate Refused(n: AddressNormalizer, values: seq<string>) {
    exists i :: 0 <= i < |values| && n(values[i]) == None
  }

  /** `r` lists the normalised `values` without repetition, by their first occurrences. */
  ghost predicate FirstOccurrences(n: AddressNormalizer, values: seq<string>, r: seq<string>) {
    && (forall a :: a in r <==> Occurs(n, values, a))
    && Distinct(r)
    && (forall p, q :: 0 <= p < q < |r| ==> Before(n, values, r[p], r[q]))
  }

  lemma OccursNext(n: AddressNormalizer, values: seq<string>, x: string, a: string)
    ensures Occurs(n, values + [x], a) <==> Occurs(n, values, a) || n(x) == Some(a)
  {
    var s := values + [x];
    assert forall i :: 0 <= i < |values| ==> s[i] == values[i];
    assert s[|values|] == x;
    if Occurs(n, values, a) {
      var i :| 0 <= i < |values| && n(values[i]) == Some(a);
      assert n(s[i]) == Some(a);
    }
  }

  lemma BeforeStays(n: AddressNormalizer, values: seq<string>, x: string, a: string, b: string)
    requires Before(n, values, a, b)
    ensures Before(n, values + [x], a, b)
  {
    var i :| 0 <= i < |values| && n(values[i]) == Some(a) && !Occurs(n, values[..i + 1], b);
    assert (values + [x])[i] == values[i] && (values + [x])[..i + 1] == values[..i + 1];
  }

  lemma NewIsLast(n: AddressNormalizer, values: seq<string>, x: string, a: string, b: string)
    requires Occurs(n, values, a) && !Occurs(n, values, b)
    ensures Before(n, values + [x], a, b)
  {
    var i :| 0 <= i < |values| && n(values[i]) == Some(a);
    assert (values + [x])[i] == values[i] && (values + [x])[..i + 1] == values[..i + 1];
    assert forall j :: 0 <= j <= i ==> values[..i + 1][j] == values[j];
  }

  lemma NextOccurrence(n: AddressNormalizer, values: seq<string>, kept: seq<string>, x: string, a: string)
    requires FirstOccurrences(n, values, kept) && n(x) == Some(a)
    ensures FirstOccurrences(n, values + [x], if a in kept then kept else kept + [a])
  {
    var r := if a in kept then kept else kept + [a];
    forall b
      ensures b in r <==> Occurs(n, values + [x], b)
    {
      OccursNext(n, values, x, b);
    }
    forall p, q | 0 <= p < q < |r|
      ensures Before(n, values + [x], r[p], r[q])
    {
      if q < |kept| {
        BeforeStays(n, values, x, kept[p], kept[q]);
      } else {
        NewIsLast(n, values, x, kept[p], a);
      }
    }
  }

  /** What becomes of a list of recipients: refused if one of them is, and otherwise their first occurrences. */
  ghost predicate Gathers(n: AddressNormalizer, values: seq<string>, r: Result<seq<string>, Invalid>) {
    && (r.Failure? <==> Refused(n, values))
    && (r.Success? ==> FirstOccurrences(n, values, r.value))
    && (r.Success? && Idempotent(n) ==> CleanRecipients(n, r.value))
  }

  lemma GathersNext(n: AddressNormalizer, values: seq<string>, i: nat, kept: seq<string>, a: string)
    requires i < |values| && FirstOccurrences(n, values[..i], kept) && !Refused(n, values[..i]) && n(values[i]) == Some(a)
    ensures FirstOccurrences(n, values[..i + 1], if a in kept then kept else kept + [a]) && !Refused(n, values[..i + 1])
  {
    assert values[..i + 1] == values[..i] + [values[i]];
    NextOccurrence(n, values[..i], kept, values[i], a);
  }

  lemma {:induction false} RecipientsGather(n: AddressNormalizer, values: seq<string>, i: nat, kept: seq<string>)
    requires i <= |values| && FirstOccurrences(n, values[..i], kept) && !Refused(n, values[..i])
    ensures Recipients(n, values[i..], kept).Failure? <==> Refused(n, values)
    ensures Recipients(n, values[i..], kept).Success? ==> FirstOccurrences(n, values, Recipients(n, values[i..], kept).value)
    decreases |values| - i
  {
    if i == |values| {
      assert values[..i] == values;
    } else if n(values[i]).Some? {
      var a := n(values[i]).value;
      assert values[i..][1..] == values[i + 1..];
      GathersNext(n, values, i, kept, a);
      RecipientsGather(n, values, i + 1, if a in kept then kept else kept + [a]);
    }
  }

  lemma {:induction false} RecipientsAreClean(n: AddressNormalizer, values: seq<string>, kept: seq<string>)
    requires Idempotent(n)
    requires CleanRecipients(n, kept)
    ensures Recipients(n, values, kept).Success? ==> CleanRecipients(n, Recipients(n, values, kept).value)
    decreases |values|
  {
    if values != [] && n(values[0]).Some? {
      var a := n(values[0]).value;
      RecipientsAreClean(n, values[1..], if a in kept then kept else kept + [a]);
    }
  }

  lemma RecipientsAreGathered(n: AddressNormalizer, values: seq<string>)
    ensures Gathers(n, values, Recipients(n, values, []))
  {
    assert values[0..] == values;
    RecipientsGather(n, values, 0, []);
    if Idempotent(n) {
      RecipientsAreClean(n, values, []);
    }
  }

  /** The recipient loop, as the source runs it: a set of seen addresses beside the result. */
  method NormalizeAddresses(n: AddressNormalizer, values: seq<string>) returns (r: Result<seq<string>, Invalid>)
    ensures r == Recipients(n, values, []) && Gathers(n, values, r)
  {
    RecipientsAreGathered(n, values);
    var result: seq<string> := [];
    var seen: set<string> := {};
    for i := 0 to |values|
      invariant seen == set a | a in result
      invariant Recipients(n, values, []) == Recipients(n, values[i..], result)
    {
      var normalized := n(values[i]);
      if normalized.None? {
        return Failure(Invalid);
      }
      assert values[i..][1..] == values[i + 1..];
      if normalized.value !in seen {
        seen := seen + {normalized.value};
        result := result + [normalized.value];
      }
    }
    r := Success(result);
  }

  lemma {:induction false} CleanRecipientsAreFixed(n: AddressNormalizer, values: seq<string>, kept: seq<string>)
    requires CleanRecipients(n, kept + values)
    ensures Recipients(n, values, kept) == Success(kept + values)
    decreases |values|
  {
    if values == [] {
      assert kept + values == kept;
    } else {
      var s := kept + values;
      assert s[|kept|] == values[0];
      assert values[0] !in kept by {
        assert forall i :: 0 <= i < |kept| ==> kept[i] == s[i];
      }
      assert (kept + [values[0]]) + values[1..] == s;
      CleanRecipientsAreFixed(n, values[1..], kept + [values[0]]);
    }
  }

  /** The fields Gmail owns and a revision may not touch. */
  predicate SameThread(a: Email, b: Email) {
    && a.mode == b.mode
    && a.threadId == b.threadId
    && a.inReplyTo == b.inReplyTo
    && a.references == b.references
  }

  // ----- The model as a whole ------------------------------------------------------------------

  const MAX_SUBJECT: nat := 998
  const MAX_TEXT: nat := 100_000
  const MAX_HTML: nat := 200_000
  const MAX_THREAD_ID: nat := 500
  const MAX_IN_REPLY_TO: nat := 998
  const MAX_REFERENCES: nat := 100

  predicate FitsOptional(o: Option<string>, max: nat) {
    o.Some? ==> |o.value| <= max
  }

  /** The checks made after the field validators have normalised every field. */
  predicate Deliverable(m: Email) {
    && m.subject != "" && |m.subject| <= MAX_SUBJECT
    && m.textBody != "" && |m.textBody| <= MAX_TEXT
    && FitsOptional(m.htmlBody, MAX_HTML)
    && FitsOptional(m.threadId, MAX_THREAD_ID)
    && FitsOptional(m.inReplyTo, MAX_IN_REPLY_TO)
    && |m.references| <= MAX_REFERENCES
    && m.attachments == []
    && (m.to != [] || m.cc != [] || m.bcc != [])
    && match m.mode
       case Reply => m.threadId.Some? && m.inReplyTo.Some?
       case New => m.threadId.None? && m.inReplyTo.None? && m.references == []
  }

  /** `CanonicalEmail(...)` and `CanonicalEmail.model_validate(...)`. */
  function Validate(n: AddressNormalizer, e: Email): Result<Email, Invalid> {
    var to := Recipients(n, e.to, []);
    var cc := Recipients(n, e.cc, []);
    var bcc := Recipients(n, e.bcc, []);
    if to.Failure? || cc.Failure? || bcc.Failure? then Failure(Invalid)
    else
      var m := Email(e.mode, to.value, cc.value, bcc.value,
                     SingleLine(e.subject), Body(e.textBody),
                     StripOptional(e.htmlBody), StripOptional(e.threadId), StripOptional(e.inReplyTo),
                     References(e.references), e.attachments);
      if Deliverable(m) then Success(m) else Failure(Invalid)
  }

  /** What a stored canonical email looks like, without mentioning how it is computed. */
  predicate Canonical(n: AddressNormalizer, m: Email) {
    && CleanRecipients(n, m.to) && CleanRecipients(n, m.cc) && CleanRecipients(n, m.bcc)
    && SingleSpaced(m.subject)
    && Trimmed(m.textBody) && '\r' !in m.textBody
    && PresentAndTrimmed(m.htmlBody) && PresentAndTrimmed(m.threadId) && PresentAndTrimmed(m.inReplyTo)
    && CleanReferences(m.references)
    && Deliverable(m)
  }

  /** Whatever validation accepts is canonical. */
  lemma ValidateYieldsCanonical(n: AddressNormalizer, e: Email)
    requires Idempotent(n)
    requires Validate(n, e).Success?
    ensures Canonical(n, Validate(n, e).value)
  {
    RecipientsAreClean(n, e.to, []);
    RecipientsAreClean(n, e.cc, []);
    RecipientsAreClean(n, e.bcc, []);
    SplitYieldsWords(e.subject);
    JoinIsSingleSpaced(Words(e.subject));
    BodyIsSettled(e.textBody);
    StripOptionalSettles(e.htmlBody);
    StripOptionalSettles(e.threadId);
    StripOptionalSettles(e.inReplyTo);
    ReferencesSettle(e.references);
  }

  lemma CanonicalRecipientsAreFixed(n: AddressNormalizer, s: seq<string>)
    requires CleanRecipients(n, s)
    ensures Recipients(n, s, []) == Success(s)
  {
    assert [] + s == s;
    CleanRecipientsAreFixed(n, s, []);
  }

  lemma CanonicalIsFixed(n: AddressNormalizer, m: Email)
    requires Canonical(n, m)
    ensures Validate(n, m) == Success(m)
  {
    CanonicalRecipientsAreFixed(n, m.to);
    CanonicalRecipientsAreFixed(n, m.cc);
    CanonicalRecipientsAreFixed(n, m.bcc);
    SingleSpacedIsFixed(m.subject);
    SettledBodyIsFixed(m.textBody);
    StripOptionalSettles(m.htmlBody);
    StripOptionalSettles(m.threadId);
    StripOptionalSettles(m.inReplyTo);
    CleanReferencesAreFixed(m.references);
  }

  /** Canonical emails are exactly the fixed points of validation. */
  lemma CanonicalIffFixed(n: AddressNormalizer, m: Email)
    requires Idempotent(n)
    ensures Canonical(n, m) <==> Validate(n, m) == Success(m)
  {
    if Canonical(n, m) {
      CanonicalIsFixed(n, m);
    }
    if Validate(n, m) == Success(m) {
      ValidateYieldsCanonical(n, m);
    }
  }

  /** The stored form after `rounds` store-and-load trips. */
  function RoundTrips(n: AddressNormalizer, m: Email, rounds: nat): Result<Email, Invalid>
    decreases rounds
  {
    if rounds == 0 then Success(m)
    else match Validate(n, m)
      case Failure(e) => Failure(e)
      case Success(next) => RoundTrips(n, next, rounds - 1)
  }

  /** Normalisation is idempotent: an accepted email, and so its hash, survives any number of trips. */
  lemma {:induction false} RoundTripsKeepHash(n: AddressNormalizer, e: Email, rounds: nat)
    requires Idempotent(n)
    requires Validate(n, e).Success?
    ensures RoundTrips(n, Validate(n, e).value, rounds) == Validate(n, e)
    decreases rounds
  {
    var m := Validate(n, e).value;
    ValidateYieldsCanonical(n, e);
    CanonicalIffFixed(n, m);
    if rounds > 0 {
      RoundTripsKeepHash(n, m, rounds - 1);
    }
  }

  // ----- What the action protocol relies on ----------------------------------------------------

  /** A canonicaliser leaves its own results alone, and keeps the thread fields of an email that
      took them from a canonical one. */
  ghost predicate Canonicalizer(canon: Email -> Option<Email>) {
    && (forall e: Email :: canon(e).Some? ==> canon(canon(e).value) == canon(e))
    && (forall e: Email, m: Email :: canon(e).Some? && canon(m) == Some(m) && SameThread(e, m) ==> SameThread(canon(e).value, m))
  }

  function Validator(n: AddressNormalizer): Email -> Option<Email> {
    (e: Email) => match Validate(n, e) case Success(m) => Some(m) case Failure(_) => None
  }

  /** `Validate` is one, whatever the library does with addresses. */
  lemma ValidateIsCanonicalizer(n: AddressNormalizer)
    requires Idempotent(n)
    ensures Canonicalizer(Validator(n))
  {
    forall e: Email | Validate(n, e).Success?
      ensures Validate(n, Validate(n, e).value) == Validate(n, e)
    {
      ValidateYieldsCanonical(n, e);
      CanonicalIffFixed(n, Validate(n, e).value);
    }
    forall e: Email, m: Email | Validate(n, e).Success? && Validate(n, m) == Success(m) && SameThread(e, m)
      ensures SameThread(Validate(n, e).value, m)
    {
      CanonicalIffFixed(n, m);
      StripOptionalSettles(m.threadId);
      StripOptionalSettles(m.inReplyTo);
      CleanReferencesAreFixed(m.references);
    }
  }

  /** A short new email to one recipient. */
  function PlainEmail(address: string): Email {
    Email(Mode.New, [address], [], [], "Hello", "Hi.", None, None, None, [], [])
  }

  lemma PlainEmailIsCanonical(n: AddressNormalizer, address: string)
    requires n(address) == Some(address)
    ensures Canonical(n, PlainEmail(address)) && Validator(n)(PlainEmail(address)) == Some(PlainEmail(address))
  {
    CanonicalIsFixed(n, PlainEmail(address));
  }
}
