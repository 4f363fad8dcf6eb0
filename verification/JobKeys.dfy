/** Deterministic job keys: the joined preimage, the runtime job key and the resume job id. */
module JobKeys {
  import opened Digits
  import opened Options

  const SEPARATOR := "::"

  /** `parts.filter(Boolean)`: absent and empty parts are dropped. */
  function Present(parts: seq<Option<string>>): seq<string> {
    if parts == [] then []
    else if HasText(parts[0]) then [parts[0].value] + Present(parts[1..])
    else Present(parts[1..])
  }

  function Join(parts: seq<string>): string {
    if parts == [] then ""
    else if |parts| == 1 then parts[0]
    else parts[0] + SEPARATOR + Join(parts[1..])
  }

  predicate SeparatorAt(text: string, i: int) {
    0 <= i && i + 1 < |text| && text[i] == ':' && text[i + 1] == ':'
  }

  predicate HasSeparator(text: string) {
    exists i | 0 <= i < |text| :: SeparatorAt(text, i)
  }

  /** The leftmost separator, or -1. */
  function FindSeparator(text: string): (r: int)
    ensures -1 <= r < |text|
    ensures r >= 0 ==> SeparatorAt(text, r) && forall i | 0 <= i < r :: !SeparatorAt(text, i)
    ensures r < 0 ==> !HasSeparator(text)
  {
    if |text| < 2 then -1
    else if SeparatorAt(text, 0) then 0
    else
      var rest := FindSeparator(text[1..]);
      assert forall i | 1 <= i < |text| :: SeparatorAt(text, i) <==> SeparatorAt(text[1..], i - 1);
      if rest < 0 then -1 else rest + 1
  }

  /** Splitting on every separator, scanning from the left. */
  function Split(text: string): seq<string>
    decreases |text|
  {
    var i := FindSeparator(text);
    if i < 0 then [text] else [text[..i]] + Split(text[i + 2..])
  }

  predicate EndsWithColon(text: string) {
    text != "" && text[|text| - 1] == ':'
  }

  /** The exact condition for a joined list to be read back: no part holds a separator, and
      only the last part may end in a colon. */
  predicate Unambiguous(parts: seq<string>) {
    && (forall i | 0 <= i < |parts| :: !HasSeparator(parts[i]))
    && (forall i | 0 <= i < |parts| - 1 :: !EndsWithColon(parts[i]))
  }

  lemma LeftmostSeparator(head: string, rest: string)
    ensures var found := FindSeparator(head + SEPARATOR + rest);
            && 0 <= found <= |head|
            && (found == |head| <==> !HasSeparator(head) && !EndsWithColon(head))
  {
    var text := head + SEPARATOR + rest;
    var found := FindSeparator(text);
    assert SeparatorAt(text, |head|);
    assert forall i | 0 <= i < |head| - 1 :: SeparatorAt(text, i) <==> SeparatorAt(head, i);
    assert EndsWithColon(head) ==> SeparatorAt(text, |head| - 1);
    if found < |head| - 1 {
      assert SeparatorAt(head, found);
    }
  }

  lemma SplitHead(parts: seq<string>)
    requires |parts| > 1
    ensures var clean := !HasSeparator(parts[0]) && !EndsWithColon(parts[0]);
            if clean then Split(Join(parts)) == [parts[0]] + Split(Join(parts[1..]))
              else Split(Join(parts))[0] != parts[0]
  {
    var text, rest := Join(parts), Join(parts[1..]);
    LeftmostSeparator(parts[0], rest);
    var i := FindSeparator(text);
    assert text == parts[0] + SEPARATOR + rest;
    if i == |parts[0]| {
      assert text[..i] == parts[0] && text[i + 2..] == rest;
    } else {
      assert |text[..i]| < |parts[0]|;
    }
  }

  lemma SplitOne(part: string)
    ensures Split(part) == [part] <==> !HasSeparator(part)
  {
    var i := FindSeparator(part);
    if i >= 0 {
      assert |Split(part)| >= 2 by { assert Split(part[i + 2..]) != []; }
    }
  }

  lemma SameTailIff(head: string, a: seq<string>, b: seq<string>)
    ensures [head] + a == [head] + b <==> a == b
  {
    assert ([head] + a)[1..] == a && ([head] + b)[1..] == b;
  }

  lemma UnambiguousTail(parts: seq<string>)
    requires |parts| > 1 && !HasSeparator(parts[0]) && !EndsWithColon(parts[0])
    ensures Unambiguous(parts) <==> Unambiguous(parts[1..])
  {
    assert forall j | 0 <= j < |parts[1..]| :: parts[1..][j] == parts[j + 1];
    assert forall j | 1 <= j < |parts| :: parts[j] == parts[1..][j - 1];
  }

  lemma DirtyHeadIsLost(parts: seq<string>)
    requires |parts| > 1 && (HasSeparator(parts[0]) || EndsWithColon(parts[0]))
    ensures Split(Join(parts)) != parts && !Unambiguous(parts)
  {
    SplitHead(parts);
    assert HasSeparator(parts[0]) ==> !Unambiguous(parts);
  }

  lemma CleanHeadIsKept(parts: seq<string>)
    requires |parts| > 1 && !HasSeparator(parts[0]) && !EndsWithColon(parts[0])
    ensures Split(Join(parts)) == parts <==> Split(Join(parts[1..])) == parts[1..]
  {
    SplitHead(parts);
    assert parts == [parts[0]] + parts[1..];
    SameTailIff(parts[0], Split(Join(parts[1..])), parts[1..]);
  }

  /** A joined list is read back by splitting exactly when it is unambiguous. */
  lemma {:induction false} SplitJoin(parts: seq<string>)
    requires parts != []
    ensures Split(Join(parts)) == parts <==> Unambiguous(parts)
  {
    if |parts| == 1 {
      SplitOne(parts[0]);
      assert parts == [parts[0]];
    } else if HasSeparator(parts[0]) || EndsWithColon(parts[0]) {
      DirtyHeadIsLost(parts);
    } else {
      SplitJoin(parts[1..]);
      UnambiguousTail(parts);
      CleanHeadIsKept(parts);
    }
  }

  lemma JoinInjective(a: seq<string>, b: seq<string>)
    requires a != [] && b != [] && Unambiguous(a) && Unambiguous(b)
    requires Join(a) == Join(b)
    ensures a == b
  {
    SplitJoin(a);
    SplitJoin(b);
  }

  lemma {:induction false} JoinTail(before: seq<string>, a: seq<string>, b: seq<string>)
    requires a != [] && b != [] && Join(a) == Join(b)
    ensures Join(before + a) == Join(before + b)
  {
    if before == [] {
      assert before + a == a && before + b == b;
    } else {
      assert (before + a)[1..] == before[1..] + a && (before + b)[1..] == before[1..] + b;
      JoinTail(before[1..], a, b);
    }
  }

  lemma JoinHead(head: string, next: string, rest: seq<string>)
    ensures Join([head, next] + rest) == head + SEPARATOR + Join([next] + rest)
  {
    assert ([head, next] + rest)[1..] == [next] + rest;
  }

  lemma JoinPrefix(prefix: string, next: string, rest: seq<string>)
    ensures Join([prefix + next] + rest) == prefix + Join([next] + rest)
  {
    assert ([prefix + next] + rest)[1..] == rest && ([next] + rest)[1..] == rest;
  }

  /** A colon moves over the separator, wherever in the list. */
  lemma ColonAtPartEdgeIsAmbiguous(before: seq<string>, a: string, b: string, after: seq<string>)
    ensures Join(before + ([a + ":", b] + after)) == Join(before + ([a, ":" + b] + after))
    ensures before + ([a + ":", b] + after) != before + ([a, ":" + b] + after)
  {
    var x, y := [a + ":", b] + after, [a, ":" + b] + after;
    var rest := Join([b] + after);
    JoinHead(a + ":", b, after);
    JoinHead(a, ":" + b, after);
    JoinPrefix(":", b, after);
    assert (a + ":") + SEPARATOR + rest == a + SEPARATOR + (":" + rest);
    JoinTail(before, x, y);
    assert (before + x)[|before|] == a + ":" && (before + y)[|before|] == a;
  }

  // ---------------------------------------------------------------- when two lists collide

  /** What `parts.filter(Boolean)` leaves: at least one part, none empty. */
  predicate AllText(parts: seq<string>) {
    parts != [] && forall i | 0 <= i < |parts| :: parts[i] != ""
  }

  /** The joined text can be cut at `p` into two parts. */
  predicate CutsAt(text: string, p: int) {
    0 < p && p + 2 < |text| && SeparatorAt(text, p)
  }

  /** Two neighbouring parts, once joined, can be cut elsewhere as well. */
  predicate Recuts(left: string, right: string) {
    exists p | 0 <= p < |left + SEPARATOR + right| :: p != |left| && CutsAt(left + SEPARATOR + right, p)
  }

  lemma JoinPair(left: string, right: string, rest: seq<string>)
    ensures Join([left, right] + rest) == Join([left + SEPARATOR + right] + rest)
  {
    JoinHead(left, right, rest);
    assert ([left + SEPARATOR + right] + rest)[1..] == rest && ([right] + rest)[1..] == rest;
  }

  /** A pair cut elsewhere gives another list of as many parts. */
  lemma RecutList(parts: seq<string>, i: nat, p: int) returns (other: seq<string>)
    requires AllText(parts) && i + 1 < |parts| && p != |parts[i]|
    requires CutsAt(parts[i] + SEPARATOR + parts[i + 1], p)
    ensures |other| == |parts| && AllText(other) && other != parts && Join(other) == Join(parts)
  {
    var pair := parts[i] + SEPARATOR + parts[i + 1];
    var left, right := pair[..p], pair[p + 2..];
    var before, rest := parts[..i], parts[i + 2..];
    assert left + SEPARATOR + right == pair;
    JoinPair(left, right, rest);
    JoinPair(parts[i], parts[i + 1], rest);
    JoinTail(before, [left, right] + rest, [parts[i], parts[i + 1]] + rest);
    assert before + ([parts[i], parts[i + 1]] + rest) == parts;
    other := before + ([left, right] + rest);
    assert other[i] == left && |left| == p;
  }

  lemma JoinOfMore(parts: seq<string>)
    requires |parts| >= 2
    ensures Join(parts) == parts[0] + SEPARATOR + Join(parts[1..])
    ensures parts[1] <= Join(parts[1..])
  {
  }

  /** The first pair's text, and what stands at a place inside it. */
  lemma FirstPair(parts: seq<string>, p: int)
    requires |parts| >= 2 && 0 <= p && p + 1 < |parts[0]| + 2 + |parts[1]|
    ensures p + 1 < |Join(parts)| && |Join(parts)| >= |parts[0]| + 2 + |parts[1]|
    ensures SeparatorAt(parts[0] + SEPARATOR + parts[1], p) <==> SeparatorAt(Join(parts), p)
  {
    JoinOfMore(parts);
  }

  /** Two lists of equally many parts that join to one text: some pair of the first can be cut elsewhere.
      If the first cuts differ, one of them lies in the first pair of the other list, or else the rest of
      both lists differ again. */
  lemma {:induction false} CollisionRecuts(a: seq<string>, b: seq<string>) returns (i: nat)
    requires AllText(a) && AllText(b) && |a| == |b| && a != b && Join(a) == Join(b)
    ensures i + 1 < |a| && Recuts(a[i], a[i + 1])
    decreases |a|
  {
    assert |a| >= 2;
    JoinOfMore(a);
    JoinOfMore(b);
    var x, y := |a[0]|, |b[0]|;
    assert SeparatorAt(Join(b), y);
    if x == y {
      assert a[0] == Join(a)[..x] && b[0] == Join(b)[..x];
      assert Join(a[1..]) == Join(a)[x + 2..] && Join(b[1..]) == Join(b)[x + 2..];
      assert a == [a[0]] + a[1..] && b == [b[0]] + b[1..];
      var j := CollisionRecuts(a[1..], b[1..]);
      i := j + 1;
    } else if y < x {
      FirstPair(a, y);
      assert CutsAt(a[0] + SEPARATOR + a[1], y);
      i := 0;
    } else {
      var gap := Join(a)[x + 2..y + 2];
      var rest := [gap + b[1]] + b[2..];
      SameRest(a, b, gap);
      if |rest[0]| <= |a[1]| {
        FirstPair(a, y);
        assert CutsAt(a[0] + SEPARATOR + a[1], y);
        i := 0;
      } else {
        var j := CollisionRecuts(a[1..], rest);
        i := j + 1;
      }
    }
  }

  lemma CutInTwo(text: string, from: nat, to: nat)
    requires from <= to <= |text|
    ensures text[from..] == text[from..to] + text[to..]
  {
  }

  /** Where the second list cuts first later, what it has cut off in excess goes to its next part. */
  lemma SameRest(a: seq<string>, b: seq<string>, gap: string)
    requires |a| >= 2 && |b| >= 2 && Join(a) == Join(b) && |a[0]| < |b[0]|
    requires |b[0]| + 2 <= |Join(a)| && gap == Join(a)[|a[0]| + 2..|b[0]| + 2]
    ensures Join([gap + b[1]] + b[2..]) == Join(a[1..]) && gap != ""
  {
    JoinOfMore(a);
    JoinOfMore(b);
    var text, x, y := Join(a), |a[0]|, |b[0]|;
    assert Join(a[1..]) == text[x + 2..] && Join(b[1..]) == text[y + 2..];
    CutInTwo(text, x + 2, y + 2);
    JoinPrefix(gap, b[1], b[2..]);
    assert [b[1]] + b[2..] == b[1..];
  }

  /** Exactly: a list shares its preimage with another list of as many parts if and only if some pair of
      neighbouring parts can be cut elsewhere. */
  lemma EquallyManyCollideIff(parts: seq<string>)
    requires AllText(parts)
    ensures (exists other | |other| == |parts| && AllText(other) && Join(other) == Join(parts) :: other != parts)
       <==> (exists i | 0 <= i < |parts| - 1 :: Recuts(parts[i], parts[i + 1]))
  {
    if i :| 0 <= i < |parts| - 1 && Recuts(parts[i], parts[i + 1]) {
      var pair := parts[i] + SEPARATOR + parts[i + 1];
      var p :| 0 <= p < |pair| && p != |parts[i]| && CutsAt(pair, p);
      var other := RecutList(parts, i, p);
    }
    if other :| |other| == |parts| && AllText(other) && Join(other) == Join(parts) && other != parts {
      var i := CollisionRecuts(parts, other);
      assert Recuts(parts[i], parts[i + 1]);
    }
  }

  /** Exactly: a list shares its preimage with any other list if and only if it has two parts or more, or
      its one part can be cut. */
  lemma AnyListCollidesIff(parts: seq<string>)
    requires AllText(parts)
    ensures (exists other | AllText(other) && Join(other) == Join(parts) :: other != parts)
       <==> |parts| >= 2 || exists p | 0 <= p < |parts[0]| :: CutsAt(parts[0], p)
  {
    if |parts| >= 2 {
      JoinOfMore(parts);
      assert AllText([Join(parts)]) && Join([Join(parts)]) == Join(parts) && [Join(parts)] != parts;
    } else if p :| 0 <= p < |parts[0]| && CutsAt(parts[0], p) {
      var other := [parts[0][..p], parts[0][p + 2..]];
      JoinPair(other[0], other[1], []);
      assert other == other + [] && [parts[0]] == [parts[0]] + [] && parts[0] == other[0] + SEPARATOR + other[1];
      assert AllText(other) && Join(other) == Join(parts) && other != parts;
    } else {
      forall other | AllText(other) && Join(other) == Join(parts) ensures other == parts {
        if |other| >= 2 {
          JoinOfMore(other);
          assert CutsAt(parts[0], |other[0]|);
        } else {
          assert other == [other[0]] && parts == [parts[0]];
        }
      }
    }
  }

  // ---------------------------------------------------------------- the runtime job key

  datatype KeyArgs = KeyArgs(
    queueName: string, jobName: string, workerName: string, batchId: string,
    entityType: Option<string>, entityId: Option<string>, idempotencyScope: Option<string>,
    correlationId: Option<string>, parentRuntimeJobKey: Option<string>)

  function KeyParts(args: KeyArgs): seq<Option<string>> {
    [Some(args.queueName), Some(args.jobName), Some(args.workerName), Some(args.batchId),
     args.entityType, args.entityId, args.idempotencyScope, args.correlationId, args.parentRuntimeJobKey]
  }

  /** What stands for the first 24 hex digits of SHA-256: as in those no colon occurs, and no two preimages
      have it in common. */
  function Digest(text: string): (digest: string)
    ensures forall i | 0 <= i < |digest| :: digest[i] != ':'
  {
    seq(2 * |text|, i requires 0 <= i < 2 * |text| =>
      var c := text[i / 2];
      if i % 2 == 1 then (if c == ':' then '1' else '0') else if c == ':' then '0' else c)
  }

  lemma DigestInjective(a: string, b: string)
    requires Digest(a) == Digest(b)
    ensures a == b
  {
    assert |a| == |b|;
    forall i | 0 <= i < |a| ensures a[i] == b[i] {
      assert Digest(a)[2 * i] == Digest(b)[2 * i] && Digest(a)[2 * i + 1] == Digest(b)[2 * i + 1];
    }
  }

  function HashKey(parts: seq<Option<string>>): string {
    Digest(Join(Present(parts)))
  }

  function RuntimeJobKeyWith(digest: string -> string, args: KeyArgs): string {
    args.workerName + ":" + digest(Join(Present(KeyParts(args))))
  }

  function RuntimeJobKey(args: KeyArgs): string {
    RuntimeJobKeyWith(Digest, args)
  }

  /** Two lists drop the same positions. */
  predicate SameShape(a: seq<Option<string>>, b: seq<Option<string>>) {
    |a| == |b| && forall i | 0 <= i < |a| :: HasText(a[i]) <==> HasText(b[i])
  }

  lemma {:induction false} PresentInjective(a: seq<Option<string>>, b: seq<Option<string>>)
    requires SameShape(a, b) && Present(a) == Present(b)
    ensures forall i | 0 <= i < |a| && HasText(a[i]) :: a[i] == b[i]
  {
    if a != [] {
      assert HasText(a[0]) <==> HasText(b[0]);
      if HasText(a[0]) {
        assert Present(a)[0] == a[0].value && Present(b)[0] == b[0].value;
        assert Present(a)[1..] == Present(a[1..]) && Present(b)[1..] == Present(b[1..]);
      }
      assert SameShape(a[1..], b[1..]) by {
        forall i | 0 <= i < |a[1..]| ensures HasText(a[1..][i]) <==> HasText(b[1..][i]) {
          assert HasText(a[i + 1]) <==> HasText(b[i + 1]);
        }
      }
      PresentInjective(a[1..], b[1..]);
      forall i | 0 <= i < |a| && HasText(a[i]) ensures a[i] == b[i] {
        if i > 0 {
          assert a[i] == a[1..][i - 1] && b[i] == b[1..][i - 1];
        }
      }
    }
  }

  /** No pair of neighbouring parts can be cut elsewhere. */
  ghost predicate CutsOnlyHere(parts: seq<string>) {
    forall i | 0 <= i < |parts| - 1 :: !Recuts(parts[i], parts[i + 1])
  }

  lemma {:induction false} PresentText(a: seq<Option<string>>, b: seq<Option<string>>)
    requires SameShape(a, b)
    ensures |Present(a)| == |Present(b)| && (Present(a) != [] ==> AllText(Present(a)) && AllText(Present(b)))
  {
    if a != [] {
      assert HasText(a[0]) <==> HasText(b[0]);
      assert forall i | 0 <= i < |a| - 1 :: a[1..][i] == a[i + 1] && b[1..][i] == b[i + 1];
      PresentText(a[1..], b[1..]);
    }
  }

  /** Of one shape, lists whose preimages agree are the same if the first can be cut nowhere else, or if
      both can be read back. */
  lemma SamePreimage(a: seq<Option<string>>, b: seq<Option<string>>)
    requires SameShape(a, b) && Join(Present(a)) == Join(Present(b))
    requires CutsOnlyHere(Present(a)) || (Unambiguous(Present(a)) && Unambiguous(Present(b)))
    ensures Present(a) == Present(b)
  {
    PresentText(a, b);
    if Present(a) != Present(b) {
      if CutsOnlyHere(Present(a)) {
        var i := CollisionRecuts(Present(a), Present(b));
      } else {
        JoinInjective(Present(a), Present(b));
      }
    }
  }

  /** The keys agree on every field that the first argument set names. */
  predicate FieldsAgree(a: KeyArgs, b: KeyArgs) {
    && a.workerName == b.workerName
    && (a.queueName != "" ==> a.queueName == b.queueName)
    && (a.jobName != "" ==> a.jobName == b.jobName)
    && (a.batchId != "" ==> a.batchId == b.batchId)
    && (HasText(a.entityType) ==> a.entityType == b.entityType)
    && (HasText(a.entityId) ==> a.entityId == b.entityId)
    && (HasText(a.idempotencyScope) ==> a.idempotencyScope == b.idempotencyScope)
    && (HasText(a.correlationId) ==> a.correlationId == b.correlationId)
    && (HasText(a.parentRuntimeJobKey) ==> a.parentRuntimeJobKey == b.parentRuntimeJobKey)
  }

  /** A key is cut at its last colon. */
  lemma LastColonTells(w: string, d: string, v: string, e: string)
    requires ':' !in d && ':' !in e && w + ":" + d == v + ":" + e
    ensures w == v && d == e
  {
    var x, y := w + ":" + d, v + ":" + e;
    assert x[|w|] == ':' && y[|v|] == ':';
    forall j | |w| < j < |x| ensures x[j] != ':' {
      assert x[j] == d[j - |w| - 1];
    }
    forall j | |v| < j < |y| ensures y[j] != ':' {
      assert y[j] == e[j - |v| - 1];
    }
    assert w == x[..|w|] && v == y[..|v|] && d == x[|w| + 1..] && e == y[|v| + 1..];
  }

  lemma PositionsAgree(a: KeyArgs, b: KeyArgs)
    requires a.workerName == b.workerName && SameShape(KeyParts(a), KeyParts(b))
    requires Present(KeyParts(a)) == Present(KeyParts(b))
    ensures FieldsAgree(a, b)
  {
    PresentInjective(KeyParts(a), KeyParts(b));
    var x, y := KeyParts(a), KeyParts(b);
    assert HasText(x[0]) ==> x[0] == y[0];
    assert HasText(x[1]) ==> x[1] == y[1];
    assert HasText(x[3]) ==> x[3] == y[3];
    assert HasText(x[4]) ==> x[4] == y[4];
    assert HasText(x[5]) ==> x[5] == y[5];
    assert HasText(x[6]) ==> x[6] == y[6];
    assert HasText(x[7]) ==> x[7] == y[7];
    assert HasText(x[8]) ==> x[8] == y[8];
  }

  /** Job identity: with a digest of hex digits that does not collide on these two preimages, two
      argument sets that leave out the same fields share a key only if every field agrees, provided the
      first can be cut into its fields only here, or both can be read back. */
  lemma RuntimeJobKeyIdentifies(digest: string -> string, a: KeyArgs, b: KeyArgs)
    requires var x, y := Join(Present(KeyParts(a))), Join(Present(KeyParts(b)));
             ':' !in digest(x) && ':' !in digest(y) && (digest(x) == digest(y) ==> x == y)
    requires || CutsOnlyHere(Present(KeyParts(a)))
             || (Unambiguous(Present(KeyParts(a))) && Unambiguous(Present(KeyParts(b))))
    requires SameShape(KeyParts(a), KeyParts(b))
    requires RuntimeJobKeyWith(digest, a) == RuntimeJobKeyWith(digest, b)
    ensures FieldsAgree(a, b)
  {
    var x, y := Join(Present(KeyParts(a))), Join(Present(KeyParts(b)));
    LastColonTells(a.workerName, digest(x), b.workerName, digest(y));
    SamePreimage(KeyParts(a), KeyParts(b));
    PositionsAgree(a, b);
  }

  // ---------------------------------------------------------------- the same, on the fields alone

  /** Two argument sets leave out the same fields. */
  predicate SameFieldsNamed(a: KeyArgs, b: KeyArgs) {
    && (a.queueName == "" <==> b.queueName == "")
    && (a.jobName == "" <==> b.jobName == "")
    && (a.workerName == "" <==> b.workerName == "")
    && (a.batchId == "" <==> b.batchId == "")
    && (HasText(a.entityType) <==> HasText(b.entityType))
    && (HasText(a.entityId) <==> HasText(b.entityId))
    && (HasText(a.idempotencyScope) <==> HasText(b.idempotencyScope))
    && (HasText(a.correlationId) <==> HasText(b.correlationId))
    && (HasText(a.parentRuntimeJobKey) <==> HasText(b.parentRuntimeJobKey))
  }

  /** A part that nothing can be mistaken for: no separator in it, and no colon at its end. */
  predicate Plain(text: string) {
    !HasSeparator(text) && !EndsWithColon(text)
  }

  predicate PlainFields(args: KeyArgs) {
    && Plain(args.queueName) && Plain(args.jobName) && Plain(args.workerName) && Plain(args.batchId)
    && Plain(args.entityType.GetOr("")) && Plain(args.entityId.GetOr("")) && Plain(args.idempotencyScope.GetOr(""))
    && Plain(args.correlationId.GetOr("")) && Plain(args.parentRuntimeJobKey.GetOr(""))
  }

  lemma {:induction false} PlainPartsReadBack(parts: seq<Option<string>>)
    requires forall i | 0 <= i < |parts| && HasText(parts[i]) :: Plain(parts[i].value)
    ensures forall i | 0 <= i < |Present(parts)| :: Plain(Present(parts)[i])
  {
    if parts != [] {
      assert HasText(parts[0]) ==> Plain(parts[0].value);
      forall i | 0 <= i < |parts[1..]| && HasText(parts[1..][i]) ensures Plain(parts[1..][i].value) {
        assert parts[1..][i] == parts[i + 1];
      }
      PlainPartsReadBack(parts[1..]);
    }
  }

  lemma {:induction false} SamePresent(a: seq<Option<string>>, b: seq<Option<string>>)
    requires |a| == |b| && forall i | 0 <= i < |a| :: a[i] == b[i] || (!HasText(a[i]) && !HasText(b[i]))
    ensures Present(a) == Present(b)
  {
    if a != [] {
      assert a[0] == b[0] || (!HasText(a[0]) && !HasText(b[0]));
      assert forall i | 0 <= i < |a| - 1 :: a[1..][i] == a[i + 1] && b[1..][i] == b[i + 1];
      SamePresent(a[1..], b[1..]);
    }
  }

  lemma NineOfOneShape(x: seq<Option<string>>, y: seq<Option<string>>)
    requires |x| == 9 && |y| == 9
    requires (HasText(x[0]) <==> HasText(y[0])) && (HasText(x[1]) <==> HasText(y[1]))
    requires (HasText(x[2]) <==> HasText(y[2])) && (HasText(x[3]) <==> HasText(y[3]))
    requires (HasText(x[4]) <==> HasText(y[4])) && (HasText(x[5]) <==> HasText(y[5]))
    requires (HasText(x[6]) <==> HasText(y[6])) && (HasText(x[7]) <==> HasText(y[7]))
    requires HasText(x[8]) <==> HasText(y[8])
    ensures SameShape(x, y)
  {
  }

  lemma NamedGivesShape(a: KeyArgs, b: KeyArgs)
    requires SameFieldsNamed(a, b)
    ensures SameShape(KeyParts(a), KeyParts(b))
  {
    NineOfOneShape(KeyParts(a), KeyParts(b));
  }

  lemma NinePlainParts(x: seq<Option<string>>)
    requires |x| == 9
    requires Plain(x[0].GetOr("")) && Plain(x[1].GetOr("")) && Plain(x[2].GetOr(""))
    requires Plain(x[3].GetOr("")) && Plain(x[4].GetOr("")) && Plain(x[5].GetOr(""))
    requires Plain(x[6].GetOr("")) && Plain(x[7].GetOr("")) && Plain(x[8].GetOr(""))
    ensures forall i | 0 <= i < |x| && HasText(x[i]) :: Plain(x[i].value)
  {
  }

  lemma PlainFieldsReadBack(a: KeyArgs)
    requires PlainFields(a)
    ensures Unambiguous(Present(KeyParts(a)))
  {
    NinePlainParts(KeyParts(a));
    PlainPartsReadBack(KeyParts(a));
  }

  lemma AgreedFieldsShareTheKey(a: KeyArgs, b: KeyArgs)
    requires SameFieldsNamed(a, b) && FieldsAgree(a, b)
    ensures RuntimeJobKey(a) == RuntimeJobKey(b)
  {
    SamePresent(KeyParts(a), KeyParts(b));
  }

  /** Two argument sets of plain fields that leave out the same ones share a key if and only if every field
      agrees. */
  lemma PlainFieldsIdentify(a: KeyArgs, b: KeyArgs)
    requires PlainFields(a) && PlainFields(b) && SameFieldsNamed(a, b)
    ensures RuntimeJobKey(a) == RuntimeJobKey(b) <==> FieldsAgree(a, b)
  {
    if RuntimeJobKey(a) == RuntimeJobKey(b) {
      var x, y := Join(Present(KeyParts(a))), Join(Present(KeyParts(b)));
      NamedGivesShape(a, b);
      PlainFieldsReadBack(a);
      PlainFieldsReadBack(b);
      if Digest(x) == Digest(y) {
        DigestInjective(x, y);
      }
      RuntimeJobKeyIdentifies(Digest, a, b);
    }
    if FieldsAgree(a, b) {
      AgreedFieldsShareTheKey(a, b);
    }
  }

  /** The premise on absent fields is needed: a type without an id and an id without a type
      give one key. */
  lemma MovedFieldKeepsTheKey(digest: string -> string, args: KeyArgs, text: string)
    ensures RuntimeJobKeyWith(digest, args.(entityType := Some(text), entityId := None))
         == RuntimeJobKeyWith(digest, args.(entityType := None, entityId := Some(text)))
  {
    var left := KeyParts(args.(entityType := Some(text), entityId := None));
    var right := KeyParts(args.(entityType := None, entityId := Some(text)));
    NeighbourMoves(left[..4], left[6..], text);
    assert left == left[..4] + ([Some(text), None] + left[6..]);
    assert right == left[..4] + ([None, Some(text)] + left[6..]);
  }

  lemma NeighbourMoves(before: seq<Option<string>>, after: seq<Option<string>>, text: string)
    ensures Present(before + ([Some(text), None] + after)) == Present(before + ([None, Some(text)] + after))
  {
    PresentConcat(before, [Some(text), None] + after);
    PresentConcat(before, [None, Some(text)] + after);
    PresentConcat([Some(text), None], after);
    PresentConcat([None, Some(text)], after);
    assert [Some(text), None][1..] == [None] && [None, Some(text)][1..] == [Some(text)];
  }

  lemma PresentConcat(a: seq<Option<string>>, b: seq<Option<string>>)
    ensures Present(a + b) == Present(a) + Present(b)
  {
    if a == [] {
      assert a + b == b;
    } else {
      assert (a + b)[1..] == a[1..] + b;
      PresentConcat(a[1..], b);
    }
  }

  // ---------------------------------------------------------------- the resume job id

  /** `String(n)` of a non-negative integer. */
  function Decimal(n: nat): (text: string)
    ensures text != "" && forall c | c in text :: '0' <= c <= '9'
  {
    if n < 10 then [DigitChar(n)] else Decimal(n / 10) + [DigitChar(n % 10)]
  }

  lemma {:induction false} DecimalInjective(a: nat, b: nat)
    requires Decimal(a) == Decimal(b)
    ensures a == b
    decreases a
  {
    var s, t := Decimal(a), Decimal(b);
    assert s[|s| - 1] == DigitChar(a % 10) && t[|t| - 1] == DigitChar(b % 10);
    if a >= 10 && b >= 10 {
      assert s[..|s| - 1] == Decimal(a / 10) && t[..|t| - 1] == Decimal(b / 10);
      DecimalInjective(a / 10, b / 10);
    }
  }

  function ResumeJobId(runtimeJobKey: string, attempt: nat): string {
    "resume__" + HashKey([Some(runtimeJobKey), Some(Decimal(attempt))])
  }

  /** What a resume id stands for; an empty key is filtered out. */
  function IdPreimage(key: string, attempt: nat): string {
    if key == "" then Decimal(attempt) else key + SEPARATOR + Decimal(attempt)
  }

  lemma ResumeJobIdText(key: string, attempt: nat)
    ensures ResumeJobId(key, attempt) == "resume__" + Digest(IdPreimage(key, attempt))
  {
    var parts := [Some(key), Some(Decimal(attempt))];
    assert parts[1..] == [Some(Decimal(attempt))];
    assert parts[1..][1..] == [];
    assert Present(parts[1..]) == [Decimal(attempt)];
    assert Present(parts) == (if key == "" then [] else [key]) + [Decimal(attempt)];
    if key != "" {
      assert Join([key, Decimal(attempt)]) == key + SEPARATOR + Join([Decimal(attempt)]);
    }
  }

  lemma SameIdSamePreimage(k1: string, a1: nat, k2: string, a2: nat)
    requires ResumeJobId(k1, a1) == ResumeJobId(k2, a2)
    ensures IdPreimage(k1, a1) == IdPreimage(k2, a2)
  {
    ResumeJobIdText(k1, a1);
    ResumeJobIdText(k2, a2);
    var x, y := Digest(IdPreimage(k1, a1)), Digest(IdPreimage(k2, a2));
    assert x == ("resume__" + x)[8..] && y == ("resume__" + y)[8..];
    DigestInjective(IdPreimage(k1, a1), IdPreimage(k2, a2));
  }

  /** Behind the last colon of a resume preimage stands exactly the attempt number. */
  lemma LastColon(key: string, digits: string)
    requires forall c | c in digits :: '0' <= c <= '9'
    ensures var x := key + SEPARATOR + digits;
            && x[|x| - |digits| - 1] == ':'
            && forall j | |x| - |digits| <= j < |x| :: x[j] != ':'
  {
    var x := key + SEPARATOR + digits;
    forall j | |x| - |digits| <= j < |x| ensures x[j] != ':' {
      assert x[j] == digits[j - (|x| - |digits|)];
      assert x[j] in digits;
    }
  }

  /** A resume id determines both the job and the attempt number. */
  lemma ResumeJobIdInjective(k1: string, a1: nat, k2: string, a2: nat)
    requires ResumeJobId(k1, a1) == ResumeJobId(k2, a2)
    ensures k1 == k2 && a1 == a2
  {
    SameIdSamePreimage(k1, a1, k2, a2);
    if k1 == "" || k2 == "" {
      EmptyKeysStandApart(k1, a1, k2, a2);
    } else {
      KeyedIdsStandApart(k1, a1, k2, a2);
    }
  }

  lemma ColonTellsTheKey(key: string, attempt: nat)
    ensures ':' in IdPreimage(key, attempt) <==> key != ""
  {
    if key != "" {
      assert IdPreimage(key, attempt)[|key|] == ':';
    }
  }

  lemma EmptyKeysStandApart(k1: string, a1: nat, k2: string, a2: nat)
    requires IdPreimage(k1, a1) == IdPreimage(k2, a2) && (k1 == "" || k2 == "")
    ensures k1 == k2 && a1 == a2
  {
    ColonTellsTheKey(k1, a1);
    ColonTellsTheKey(k2, a2);
    DecimalInjective(a1, a2);
  }

  lemma KeyedIdsStandApart(k1: string, a1: nat, k2: string, a2: nat)
    requires k1 != "" && k2 != "" && IdPreimage(k1, a1) == IdPreimage(k2, a2)
    ensures k1 == k2 && a1 == a2
  {
    var d1, d2 := Decimal(a1), Decimal(a2);
    var x, y := k1 + SEPARATOR + d1, k2 + SEPARATOR + d2;
    assert x == y;
    LastColon(k1, d1);
    LastColon(k2, d2);
    assert |d1| == |d2|;
    assert d1 == x[|x| - |d1|..] && d2 == y[|y| - |d2|..];
    assert k1 == x[..|x| - |d1| - 2] && k2 == y[..|y| - |d2| - 2];
    DecimalInjective(a1, a2);
  }

  /** For one job, distinct attempt numbers give distinct resume ids, whatever its key. */
  lemma SameJobDistinctAttempts(key: string, a: nat, b: nat)
    ensures ResumeJobId(key, a) == ResumeJobId(key, b) <==> a == b
  {
    if ResumeJobId(key, a) == ResumeJobId(key, b) {
      ResumeJobIdInjective(key, a, key, b);
    }
  }
}
