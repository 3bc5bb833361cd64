/** Which published release is the newest stable one, and is it newer than the one installed. */
module Release {
  import opened Text

  // --- reading a tag

  /** One dot-separated identifier of a pre-release. */
  datatype Id = Number(n: nat) | Word(s: string)

  /** A tag read: its numeric parts, as many as it has, and the identifiers of its pre-release. */
  datatype Version = Version(nums: seq<nat>, pre: Option<seq<Id>>)

  predicate IsDigit(c: char) {
    '0' <= c <= '9'
  }

  predicate IsIdChar(c: char) {
    IsDigit(c) || 'A' <= c <= 'Z' || 'a' <= c <= 'z' || c == '.' || c == '-'
  }

  function Digits(s: string): (n: nat)
    ensures n <= |s|
    ensures forall i :: 0 <= i < n ==> IsDigit(s[i])
  {
    if s == "" || !IsDigit(s[0]) then 0 else 1 + Digits(s[1..])
  }

  function IdChars(s: string): (n: nat)
    ensures n <= |s|
    ensures n < |s| ==> !IsIdChar(s[n])
    ensures forall i :: 0 <= i < n ==> IsIdChar(s[i])
  {
    if s == "" || !IsIdChar(s[0]) then 0 else 1 + IdChars(s[1..])
  }

  datatype Numbers = NoNumbers | Numbers(nums: seq<nat>, rest: string)

  predicate IsNumeral(s: string) {
    forall i :: 0 <= i < |s| ==> IsDigit(s[i])
  }

  function Numeral(s: string): nat
    requires IsNumeral(s)
  {
    ValueOf(s, 10)
  }

  /** \d+(\.\d+)* */
  function ReadNumbers(s: string): (r: Numbers)
    ensures r.Numbers? ==> r.nums != []
    decreases |s|
  {
    var n := Digits(s);
    if n == 0 then NoNumbers
    else
      var first := Numeral(s[..n]);
      var more := if n < |s| && s[n] == '.' then ReadNumbers(s[n + 1..]) else NoNumbers;
      if more.Numbers? then Numbers([first] + more.nums, more.rest) else Numbers([first], s[n..])
  }

  /** (-pre)?(\+build)? to the end of the text. */
  datatype Tail = BadTail | Tail(pre: string)

  function ReadTail(s: string): Tail {
    var k := if s != "" && s[0] == '-' then IdChars(s[1..]) else 0;
    var rest := if k > 0 then s[1 + k..] else s;
    if rest == "" || (rest[0] == '+' && |rest| > 1 && IdChars(rest[1..]) == |rest| - 1)
    then Tail(if k > 0 then s[1..1 + k] else "") else BadTail
  }

  function IdOf(s: string): Id {
    if s != "" && IsNumeral(s) then Number(Numeral(s)) else Word(s)
  }

  function IdsOf(parts: seq<string>): (ids: seq<Id>)
    ensures |ids| == |parts|
  {
    seq(|parts|, i requires 0 <= i < |parts| => IdOf(parts[i]))
  }

  function ReadVersion(text: string): Option<Version> {
    var s := Strip(text);
    var numbers := ReadNumbers(if s != "" && s[0] == 'v' then s[1..] else s);
    if numbers.NoNumbers? then None
    else
      match ReadTail(numbers.rest)
      case BadTail => None
      case Tail(pre) => Some(Version(numbers.nums, if pre == "" then None else Some(IdsOf(SplitOn(pre, '.')))))
  }

  // --- the sort key

  const PARTS := 4

  /** (numeric parts, 1 for a release and 0 for a candidate, identifiers), compared as Python compares
      tuples. */
  datatype Key = Key(nums: seq<nat>, rank: nat, ids: seq<(nat, nat, string)>)

  function PartOf(v: Version, i: nat): nat {
    if i < |v.nums| then v.nums[i] else 0
  }

  function IdKey(id: Id): (nat, nat, string) {
    match id
    case Number(n) => (0, n, "")
    case Word(s) => (1, 0, s)
  }

  function IdKeys(ids: seq<Id>): (keys: seq<(nat, nat, string)>)
    ensures |keys| == |ids| && forall i :: 0 <= i < |ids| ==> keys[i] == IdKey(ids[i])
  {
    seq(|ids|, i requires 0 <= i < |ids| => IdKey(ids[i]))
  }

  function FourParts(v: Version): seq<nat> {
    [PartOf(v, 0), PartOf(v, 1), PartOf(v, 2), PartOf(v, 3)]
  }

  function KeyOf(v: Version): Key {
    match v.pre
    case None => Key(FourParts(v), 1, [])
    case Some(ids) => Key(FourParts(v), 0, IdKeys(ids))
  }

  /** Python's comparison of two numbers, two characters, two sequences: -1, 0 or 1. */
  function CompareNat(a: nat, b: nat): int {
    if a < b then -1 else if a > b then 1 else 0
  }

  function CompareChar(a: char, b: char): int {
    CompareNat(a as nat, b as nat)
  }

  function CompareSeq<T>(f: (T, T) -> int, xs: seq<T>, ys: seq<T>): int {
    if xs == [] then (if ys == [] then 0 else -1)
    else if ys == [] then 1
    else if f(xs[0], ys[0]) != 0 then f(xs[0], ys[0])
    else CompareSeq(f, xs[1..], ys[1..])
  }

  function CompareString(s: string, t: string): int {
    CompareSeq(CompareChar, s, t)
  }

  function CompareId(a: (nat, nat, string), b: (nat, nat, string)): int {
    if a.0 != b.0 then CompareNat(a.0, b.0)
    else if a.1 != b.1 then CompareNat(a.1, b.1)
    else CompareString(a.2, b.2)
  }

  function CompareKey(a: Key, b: Key): int {
    var nums := CompareSeq(CompareNat, a.nums, b.nums);
    if nums != 0 then nums
    else if a.rank != b.rank then CompareNat(a.rank, b.rank)
    else CompareSeq(CompareId, a.ids, b.ids)
  }

  /** release.is_newer. */
  predicate IsNewer(latest: string, current: string) {
    var a, b := ReadVersion(latest), ReadVersion(current);
    a.Some? && b.Some? && CompareKey(KeyOf(a.value), KeyOf(b.value)) > 0
  }

  // --- comparisons are total orders

  ghost predicate TotalOrder<T(!new)>(f: (T, T) -> int) {
    && (forall a, b :: f(a, b) == -f(b, a))
    && (forall a, b :: f(a, b) == 0 <==> a == b)
    && (forall a, b, c :: f(a, b) <= 0 && f(b, c) <= 0 ==> f(a, c) <= 0)
  }

  lemma {:induction false} SeqFlips<T(!new)>(f: (T, T) -> int, xs: seq<T>, ys: seq<T>)
    requires TotalOrder(f)
    ensures CompareSeq(f, xs, ys) == -CompareSeq(f, ys, xs)
  {
    if xs != [] && ys != [] {
      assert f(xs[0], ys[0]) == -f(ys[0], xs[0]);
      SeqFlips(f, xs[1..], ys[1..]);
    }
  }

  lemma {:induction false} SeqSame<T(!new)>(f: (T, T) -> int, xs: seq<T>, ys: seq<T>)
    requires TotalOrder(f)
    ensures CompareSeq(f, xs, ys) == 0 <==> xs == ys
  {
    if xs != [] && ys != [] {
      SeqSame(f, xs[1..], ys[1..]);
      assert xs == [xs[0]] + xs[1..] && ys == [ys[0]] + ys[1..];
    }
  }

  lemma {:induction false} SeqChains<T(!new)>(f: (T, T) -> int, xs: seq<T>, ys: seq<T>, zs: seq<T>)
    requires TotalOrder(f) && CompareSeq(f, xs, ys) <= 0 && CompareSeq(f, ys, zs) <= 0
    ensures CompareSeq(f, xs, zs) <= 0
  {
    if xs != [] && ys != [] && zs != [] {
      var x, y, z := xs[0], ys[0], zs[0];
      assert f(x, y) <= 0 && f(y, z) <= 0 && f(x, z) <= 0;
      if f(x, z) == 0 {
        assert f(x, y) == -f(y, x);
        assert x == z && f(y, z) == f(y, x);
        SeqChains(f, xs[1..], ys[1..], zs[1..]);
      }
    }
  }

  lemma NatsOrdered()
    ensures TotalOrder(CompareNat)
  {
  }

  lemma CharsOrdered()
    ensures TotalOrder(CompareChar)
  {
    forall a: char, b: char ensures CompareChar(a, b) == 0 <==> a == b {
      assert a as nat == b as nat <==> a == b;
    }
  }

  lemma StringsOrdered(s: string, t: string, u: string)
    ensures CompareString(s, t) == -CompareString(t, s)
    ensures CompareString(s, t) == 0 <==> s == t
    ensures CompareString(s, t) <= 0 && CompareString(t, u) <= 0 ==> CompareString(s, u) <= 0
  {
    CharsOrdered();
    SeqFlips(CompareChar, s, t);
    SeqSame(CompareChar, s, t);
    if CompareString(s, t) <= 0 && CompareString(t, u) <= 0 {
      SeqChains(CompareChar, s, t, u);
    }
  }

  lemma IdsOrdered()
    ensures TotalOrder(CompareId)
  {
    hide CompareString;
    forall a: (nat, nat, string), b: (nat, nat, string) ensures CompareId(a, b) == -CompareId(b, a) {
      StringsOrdered(a.2, b.2, a.2);
    }
    forall a: (nat, nat, string), b: (nat, nat, string) ensures CompareId(a, b) == 0 <==> a == b {
      StringsOrdered(a.2, b.2, a.2);
    }
    forall a: (nat, nat, string), b: (nat, nat, string), c: (nat, nat, string)
      | CompareId(a, b) <= 0 && CompareId(b, c) <= 0
      ensures CompareId(a, c) <= 0
    {
      StringsOrdered(a.2, b.2, c.2);
    }
  }

  lemma KeysOrdered(a: Key, b: Key, c: Key)
    ensures CompareKey(a, b) == -CompareKey(b, a)
    ensures CompareKey(a, b) == 0 <==> a == b
    ensures CompareKey(a, b) <= 0 && CompareKey(b, c) <= 0 ==> CompareKey(a, c) <= 0
  {
    hide CompareId, CompareSeq, TotalOrder;
    NatsOrdered();
    IdsOrdered();
    SeqFlips(CompareNat, a.nums, b.nums);
    SeqFlips(CompareId, a.ids, b.ids);
    SeqSame(CompareNat, a.nums, b.nums);
    SeqSame(CompareId, a.ids, b.ids);
    SeqFlips(CompareNat, b.nums, c.nums);
    SeqSame(CompareNat, b.nums, c.nums);
    SeqSame(CompareNat, a.nums, c.nums);
    if CompareKey(a, b) <= 0 && CompareKey(b, c) <= 0 {
      SeqChains(CompareNat, a.nums, b.nums, c.nums);
      if a.nums == c.nums {
        assert a.nums == b.nums by {
          SeqFlips(CompareNat, a.nums, b.nums);
        }
        if a.rank == c.rank == b.rank {
          SeqChains(CompareId, a.ids, b.ids, c.ids);
        }
      }
    }
  }

  /** "Newer" never holds of a tag and itself, never both ways, and chains; and among readable tags
      "neither is newer" chains too: a strict weak order. */
  lemma NewerIsStrict(x: string, y: string, z: string)
    ensures !IsNewer(x, x)
    ensures IsNewer(x, y) ==> !IsNewer(y, x)
    ensures IsNewer(x, y) && IsNewer(y, z) ==> IsNewer(x, z)
    ensures ReadVersion(x).Some? && ReadVersion(y).Some? && ReadVersion(z).Some?
            && !IsNewer(x, y) && !IsNewer(y, x) && !IsNewer(y, z) && !IsNewer(z, y)
            ==> !IsNewer(x, z) && !IsNewer(z, x)
  {
    hide ReadVersion, CompareKey, KeyOf;
    var a, b, c := ReadVersion(x), ReadVersion(y), ReadVersion(z);
    if a.Some? {
      KeysOrdered(KeyOf(a.value), KeyOf(a.value), KeyOf(a.value));
      if b.Some? {
        KeysOrdered(KeyOf(a.value), KeyOf(b.value), KeyOf(a.value));
        if c.Some? {
          KeysOrdered(KeyOf(c.value), KeyOf(b.value), KeyOf(a.value));
          KeysOrdered(KeyOf(b.value), KeyOf(c.value), KeyOf(a.value));
          KeysOrdered(KeyOf(a.value), KeyOf(c.value), KeyOf(b.value));
        }
      }
    }
  }

  // --- section 11 of Semantic Versioning 2.0.0

  /** The first difference decides, and a sequence comes before its extensions. */
  ghost predicate Earlier<T(!new)>(less: (T, T) -> bool, xs: seq<T>, ys: seq<T>) {
    exists i :: 0 <= i <= |xs| && FirstDifference(less, xs, ys, i)
  }

  ghost predicate FirstDifference<T(!new)>(less: (T, T) -> bool, xs: seq<T>, ys: seq<T>, i: nat)
    requires i <= |xs|
  {
    && i < |ys| && (forall j :: 0 <= j < i ==> xs[j] == ys[j])
    && (i < |xs| ==> less(xs[i], ys[i]))
  }

  lemma {:induction false} CompareIsEarlier<T(!new)>(f: (T, T) -> int, less: (T, T) -> bool, xs: seq<T>, ys: seq<T>)
    requires forall a, b :: f(a, b) == 0 <==> a == b
    requires forall a, b :: f(a, b) < 0 <==> less(a, b)
    ensures CompareSeq(f, xs, ys) < 0 <==> Earlier(less, xs, ys)
  {
    if xs == [] {
      assert ys != [] ==> FirstDifference(less, xs, ys, 0);
    } else if ys != [] {
      CompareIsEarlier(f, less, xs[1..], ys[1..]);
      if f(xs[0], ys[0]) < 0 {
        assert FirstDifference(less, xs, ys, 0);
      } else if f(xs[0], ys[0]) == 0 {
        if Earlier(less, xs[1..], ys[1..]) {
          var i :| 0 <= i <= |xs[1..]| && FirstDifference(less, xs[1..], ys[1..], i);
          assert forall j :: 0 < j < i + 1 ==> xs[j] == xs[1..][j - 1] && ys[j] == ys[1..][j - 1];
          assert FirstDifference(less, xs, ys, i + 1);
        }
        if Earlier(less, xs, ys) {
          var i :| 0 <= i <= |xs| && FirstDifference(less, xs, ys, i);
          assert !less(xs[0], ys[0]);
          assert FirstDifference(less, xs[1..], ys[1..], i - 1);
        }
      } else {
        assert !Earlier(less, xs, ys);
      }
    }
  }

  predicate CharBefore(a: char, b: char) {
    a < b
  }

  /** ASCII order. */
  ghost predicate TextBefore(s: string, t: string) {
    Earlier(CharBefore, s, t)
  }

  /** Numeric identifiers by value, alphanumeric ones in ASCII order, numeric ones first. */
  ghost predicate IdBefore(a: Id, b: Id) {
    match (a, b)
    case (Number(n), Number(m)) => n < m
    case (Number(_), Word(_)) => true
    case (Word(_), Number(_)) => false
    case (Word(s), Word(t)) => TextBefore(s, t)
  }

  /** Section 11.4.4 as well: a larger set of fields comes after a smaller one it starts with. */
  ghost predicate IdsBefore(xs: seq<Id>, ys: seq<Id>) {
    exists i :: 0 <= i <= |xs| && IdsDifferAt(xs, ys, i)
  }

  ghost predicate IdsDifferAt(xs: seq<Id>, ys: seq<Id>, i: nat)
    requires i <= |xs|
  {
    && i < |ys| && (forall j :: 0 <= j < i ==> xs[j] == ys[j])
    && (i < |xs| ==> IdBefore(xs[i], ys[i]))
  }

  predicate SamePart(a: Version, b: Version, i: nat) {
    PartOf(a, i) == PartOf(b, i)
  }

  /** The numeric parts, the leftmost difference deciding; a part that is not written is 0. */
  ghost predicate NumbersBefore(a: Version, b: Version) {
    exists i: nat :: !SamePart(a, b, i) && PartOf(a, i) < PartOf(b, i) && forall j: nat :: j < i ==> SamePart(a, b, j)
  }

  ghost predicate NumbersSame(a: Version, b: Version) {
    forall i: nat :: SamePart(a, b, i)
  }

  /** Build metadata is not part of a Version, so it plays no part in this. */
  ghost predicate Precedes(a: Version, b: Version) {
    || NumbersBefore(a, b)
    || (NumbersSame(a, b) && a.pre.Some? && (b.pre.Some? ==> IdsBefore(a.pre.value, b.pre.value)))
  }

  lemma TextCompares(s: string, t: string)
    ensures CompareString(s, t) < 0 <==> TextBefore(s, t)
    ensures CompareString(s, t) == 0 <==> s == t
  {
    CharsOrdered();
    forall a: char, b: char ensures CompareChar(a, b) < 0 <==> CharBefore(a, b) {
    }
    CompareIsEarlier(CompareChar, CharBefore, s, t);
    SeqSame(CompareChar, s, t);
  }

  lemma IdCompares(a: Id, b: Id)
    ensures CompareId(IdKey(a), IdKey(b)) < 0 <==> IdBefore(a, b)
    ensures CompareId(IdKey(a), IdKey(b)) == 0 <==> a == b
  {
    hide CompareString, TextBefore;
    TextCompares(IdKey(a).2, IdKey(b).2);
  }

  lemma {:induction false} IdsCompare(xs: seq<Id>, ys: seq<Id>)
    ensures CompareSeq(CompareId, IdKeys(xs), IdKeys(ys)) < 0 <==> IdsBefore(xs, ys)
    decreases |xs|
  {
    hide CompareId, IdBefore, IdKey;
    if xs == [] {
      assert ys != [] ==> IdsDifferAt(xs, ys, 0);
    } else if ys != [] {
      IdsCompare(xs[1..], ys[1..]);
      assert IdKeys(xs)[1..] == IdKeys(xs[1..]) && IdKeys(ys)[1..] == IdKeys(ys[1..]);
      IdCompares(xs[0], ys[0]);
      IdsShift(xs, ys);
    }
  }

  lemma IdsShift(xs: seq<Id>, ys: seq<Id>)
    requires xs != [] && ys != []
    ensures IdsBefore(xs, ys) <==> (IdBefore(xs[0], ys[0]) && xs[0] != ys[0]) || (xs[0] == ys[0] && IdsBefore(xs[1..], ys[1..]))
  {
    hide IdBefore;
    IdCompares(xs[0], ys[0]);
    assert IdBefore(xs[0], ys[0]) ==> xs[0] != ys[0];
    if IdsBefore(xs, ys) {
      var i :| 0 <= i <= |xs| && IdsDifferAt(xs, ys, i);
      if i > 0 {
        assert IdsDifferAt(xs[1..], ys[1..], i - 1);
      }
    }
    if IdBefore(xs[0], ys[0]) {
      assert IdsDifferAt(xs, ys, 0);
    }
    if xs[0] == ys[0] && IdsBefore(xs[1..], ys[1..]) {
      var i :| 0 <= i <= |xs[1..]| && IdsDifferAt(xs[1..], ys[1..], i);
      assert forall j :: 0 < j < i + 1 ==> xs[j] == xs[1..][j - 1] && ys[j] == ys[1..][j - 1];
      assert IdsDifferAt(xs, ys, i + 1);
    }
  }

  predicate FourBefore(a: Version, b: Version) {
    || PartOf(a, 0) < PartOf(b, 0)
    || (SamePart(a, b, 0) && (PartOf(a, 1) < PartOf(b, 1)
        || (SamePart(a, b, 1) && (PartOf(a, 2) < PartOf(b, 2)
            || (SamePart(a, b, 2) && PartOf(a, 3) < PartOf(b, 3))))))
  }

  lemma FourUnrolled(a: Version, b: Version)
    ensures CompareSeq(CompareNat, FourParts(a), FourParts(b)) < 0 <==> FourBefore(a, b)
  {
    hide CompareSeq;
    var xs, ys := FourParts(a), FourParts(b);
    FirstDecides(CompareNat, xs, ys);
    FirstDecides(CompareNat, xs[1..], ys[1..]);
    FirstDecides(CompareNat, xs[1..][1..], ys[1..][1..]);
    FirstDecides(CompareNat, xs[1..][1..][1..], ys[1..][1..][1..]);
    assert xs[1..][1..][1..][1..] == [] && ys[1..][1..][1..][1..] == [];
    NothingToCompare(CompareNat);
  }

  lemma FirstDecides<T>(f: (T, T) -> int, xs: seq<T>, ys: seq<T>)
    requires xs != [] && ys != []
    ensures CompareSeq(f, xs, ys) == if f(xs[0], ys[0]) != 0 then f(xs[0], ys[0]) else CompareSeq(f, xs[1..], ys[1..])
  {
  }

  lemma NothingToCompare<T>(f: (T, T) -> int)
    ensures CompareSeq(f, [], []) == 0
  {
  }

  lemma FourCompare(a: Version, b: Version)
    requires |a.nums| <= PARTS && |b.nums| <= PARTS
    ensures CompareSeq(CompareNat, FourParts(a), FourParts(b)) < 0 <==> NumbersBefore(a, b)
    ensures CompareSeq(CompareNat, FourParts(a), FourParts(b)) == 0 <==> NumbersSame(a, b)
  {
    hide CompareSeq, CompareNat;
    NatsOrdered();
    SeqSame(CompareNat, FourParts(a), FourParts(b));
    FourUnrolled(a, b);
    BeyondFour(a, b);
    if FourBefore(a, b) {
      var i: nat := if !SamePart(a, b, 0) then 0 else if !SamePart(a, b, 1) then 1 else if !SamePart(a, b, 2) then 2 else 3;
      assert !SamePart(a, b, i) && PartOf(a, i) < PartOf(b, i) && forall j: nat :: j < i ==> SamePart(a, b, j);
    }
    if NumbersBefore(a, b) {
      var i: nat :| !SamePart(a, b, i) && PartOf(a, i) < PartOf(b, i) && forall j: nat :: j < i ==> SamePart(a, b, j);
      assert i == 0 || SamePart(a, b, 0);
      assert i <= 1 || SamePart(a, b, 1);
      assert i <= 2 || SamePart(a, b, 2);
    }
    assert FourParts(a) == FourParts(b) <==> SamePart(a, b, 0) && SamePart(a, b, 1) && SamePart(a, b, 2) && SamePart(a, b, 3);
  }

  lemma BeyondFour(a: Version, b: Version)
    requires |a.nums| <= PARTS && |b.nums| <= PARTS
    ensures forall i: nat :: i >= PARTS ==> SamePart(a, b, i)
  {
  }

  /** On readable tags of at most four numeric parts, "newer" is precedence as section 11 defines it,
      both ways. */
  lemma NewerIsPrecedence(latest: string, current: string)
    requires ReadVersion(latest).Some? && |ReadVersion(latest).value.nums| <= PARTS
    requires ReadVersion(current).Some? && |ReadVersion(current).value.nums| <= PARTS
    ensures IsNewer(latest, current) <==> Precedes(ReadVersion(current).value, ReadVersion(latest).value)
  {
    hide ReadVersion, CompareSeq, NumbersBefore, NumbersSame, IdsBefore, IdKeys, FourParts;
    var a, b := ReadVersion(latest).value, ReadVersion(current).value;
    KeysOrdered(KeyOf(a), KeyOf(b), KeyOf(a));
    FourCompare(b, a);
    NoIds();
    if a.pre.Some? && b.pre.Some? {
      IdsCompare(b.pre.value, a.pre.value);
    }
  }

  lemma NoIds()
    ensures CompareSeq(CompareId, [], []) == 0
  {
  }

  /** A fifth numeric part is dropped, so it can never make a tag newer. */
  lemma FifthPartIsDropped(x: string, y: string, v: Version, fifth: nat)
    requires ReadVersion(x) == Some(v) && |v.nums| == PARTS && ReadVersion(y) == Some(v.(nums := v.nums + [fifth]))
    ensures !IsNewer(x, y) && !IsNewer(y, x)
    ensures fifth > 0 ==> Precedes(v, v.(nums := v.nums + [fifth]))
  {
    hide ReadVersion, CompareKey;
    var w := v.(nums := v.nums + [fifth]);
    assert FourParts(w) == FourParts(v);
    KeysOrdered(KeyOf(v), KeyOf(w), KeyOf(v));
    if fifth > 0 {
      assert !SamePart(v, w, 4) && forall j: nat :: j < 4 ==> SamePart(v, w, j);
    }
  }

  // --- build metadata

  predicate IsBuild(x: string) {
    |x| > 1 && x[0] == '+' && IdChars(x[1..]) == |x| - 1
  }

  lemma {:induction false} DigitsThen(s: string, x: string)
    requires x != "" && x[0] == '+'
    ensures Digits(s + x) == Digits(s)
  {
    if s == "" {
      assert s + x == x;
    } else {
      assert (s + x)[1..] == s[1..] + x;
      DigitsThen(s[1..], x);
    }
  }

  lemma {:induction false} IdCharsThen(s: string, x: string)
    requires x != "" && x[0] == '+'
    ensures IdChars(s + x) == IdChars(s)
  {
    if s == "" {
      assert s + x == x;
    } else {
      assert (s + x)[1..] == s[1..] + x;
      IdCharsThen(s[1..], x);
    }
  }

  lemma Parts<T>(s: seq<T>, x: seq<T>, n: nat)
    requires n <= |s|
    ensures (s + x)[..n] == s[..n] && (s + x)[n..] == s[n..] + x
  {
  }

  lemma {:induction false} NumbersThen(s: string, x: string)
    requires x != "" && x[0] == '+' && ReadNumbers(s).Numbers?
    ensures ReadNumbers(s + x) == ReadNumbers(s).(rest := ReadNumbers(s).rest + x)
    decreases |s|
  {
    hide ValueOf;
    var n := Digits(s);
    DigitsThen(s, x);
    Parts(s, x, n);
    if n < |s| && s[n] == '.' {
      Parts(s, x, n + 1);
      if ReadNumbers(s[n + 1..]).Numbers? {
        NumbersThen(s[n + 1..], x);
      } else {
        DigitsThen(s[n + 1..], x);
      }
    }
  }

  lemma TailThen(s: string, x: string)
    requires IsBuild(x) && ReadTail(s).Tail? && '+' !in s
    ensures ReadTail(s + x) == ReadTail(s)
  {
    if s != "" && s[0] == '-' {
      IdCharsThen(s[1..], x);
      Parts(s, x, 1);
      var k := IdChars(s[1..]);
      Parts(s, x, 1 + k);
      assert (s + x)[1..1 + k] == s[1..1 + k];
    } else {
      assert s == "" && s + x == x;
    }
  }

  lemma {:induction false} RestHolds(s: string, c: char)
    requires ReadNumbers(s).Numbers? && c !in s
    ensures c !in ReadNumbers(s).rest
    decreases |s|
  {
    hide ValueOf;
    var n := Digits(s);
    if n < |s| && s[n] == '.' && ReadNumbers(s[n + 1..]).Numbers? {
      RestHolds(s[n + 1..], c);
    }
  }

  lemma BuildTrimmed(t: string, x: string)
    requires t != "" && Trimmed(t) && IsBuild(x)
    ensures Trimmed(t + x)
  {
    assert IsIdChar(x[1..][|x| - 2]);
    assert (t + x)[0] == t[0];
  }

  /** Two tags that differ only in build metadata are the same version: neither is newer. */
  lemma BuildIsIgnored(t: string, x: string)
    requires Trimmed(t) && '+' !in t && ReadVersion(t).Some? && IsBuild(x)
    ensures ReadVersion(t + x) == ReadVersion(t) && !IsNewer(t + x, t) && !IsNewer(t, t + x)
  {
    hide ReadNumbers, ReadTail, IdsOf, SplitOn, CompareKey, KeyOf, IsBuild;
    StripTrimmed(t);
    NotEmptyIfRead(t);
    BuildTrimmed(t, x);
    StripTrimmed(t + x);
    var s := if t[0] == 'v' then t[1..] else t;
    assert (if (t + x)[0] == 'v' then (t + x)[1..] else t + x) == s + x;
    BuildStarts(x);
    NumbersThen(s, x);
    RestHolds(s, '+');
    TailThen(ReadNumbers(s).rest, x);
    KeysOrdered(KeyOf(ReadVersion(t).value), KeyOf(ReadVersion(t).value), KeyOf(ReadVersion(t).value));
  }

  lemma BuildStarts(x: string)
    requires IsBuild(x)
    ensures x != "" && x[0] == '+'
  {
  }

  lemma NotEmptyIfRead(t: string)
    requires ReadVersion(t).Some?
    ensures t != ""
  {
  }

  // --- picking out of a feed

  datatype Entry = Entry(draft: bool, prerelease: bool, tag: string)

  predicate IsPrereleaseTag(tag: string) {
    ReadVersion(tag).Some? && ReadVersion(tag).value.pre.Some?
  }

  predicate Stable(e: Entry) {
    !e.draft && !e.prerelease && !IsPrereleaseTag(e.tag)
  }

  /** What may be offered: nothing the feed calls a draft or a pre-release, and no tag that reads as a candidate. */
  predicate Publishable(e: Entry) {
    && !e.draft && !e.prerelease
    && (ReadVersion(e.tag).Some? ==> ReadVersion(e.tag).value.pre.None?)
  }

  lemma StableIs(e: Entry)
    ensures Stable(e) <==> Publishable(e)
  {
    hide ReadVersion;
  }

  /** release._sort_key: the unreadable below everything readable. */
  datatype Rank = Rank(readable: nat, key: Key)

  function RankOf(tag: string): Rank {
    match ReadVersion(tag)
    case Some(v) => Rank(1, KeyOf(v))
    case None => Rank(0, Key([0, 0, 0, 0], 0, []))
  }

  function CompareRank(a: Rank, b: Rank): int {
    if a.readable != b.readable then CompareNat(a.readable, b.readable) else CompareKey(a.key, b.key)
  }

  lemma RanksOrdered(a: Rank, b: Rank, c: Rank)
    ensures CompareRank(a, b) == -CompareRank(b, a)
    ensures CompareRank(a, b) <= 0 && CompareRank(b, c) <= 0 ==> CompareRank(a, c) <= 0
  {
    hide CompareKey;
    KeysOrdered(a.key, b.key, c.key);
  }

  lemma NewerIsHigher(x: string, y: string)
    ensures IsNewer(x, y) ==> CompareRank(RankOf(x), RankOf(y)) > 0
  {
    hide ReadVersion, CompareKey;
  }

  /** Python's max over the stable entries: the first of the highest. */
  method PickNewest(feed: seq<Entry>) returns (picked: Option<Entry>)
    ensures picked.None? <==> forall i :: 0 <= i < |feed| ==> !Publishable(feed[i])
    ensures picked.Some? ==>
              exists at :: 0 <= at < |feed| && feed[at] == picked.value && Publishable(feed[at])
                && (forall i :: 0 <= i < |feed| && Publishable(feed[i]) ==>
                      !IsNewer(feed[i].tag, picked.value.tag)
                      && (ReadVersion(feed[i].tag).Some? ==> ReadVersion(picked.value.tag).Some?))
                && (forall i :: 0 <= i < at && Publishable(feed[i]) ==> CompareRank(RankOf(feed[i].tag), RankOf(feed[at].tag)) < 0)
  {
    hide Stable, Publishable, RankOf, CompareRank, IsNewer, ReadVersion;
    forall i | 0 <= i < |feed| ensures Stable(feed[i]) <==> Publishable(feed[i]) {
      StableIs(feed[i]);
    }
    picked := None;
    ghost var at := 0;
    for i := 0 to |feed|
      invariant picked.None? <==> forall j :: 0 <= j < i ==> !Stable(feed[j])
      invariant picked.Some? ==> at < i && feed[at] == picked.value && Stable(feed[at])
      invariant picked.Some? ==>
                  forall j :: 0 <= j < i && Stable(feed[j]) ==> CompareRank(RankOf(feed[j].tag), RankOf(picked.value.tag)) <= 0
      invariant picked.Some? ==>
                  forall j :: 0 <= j < at && Stable(feed[j]) ==> CompareRank(RankOf(feed[j].tag), RankOf(picked.value.tag)) < 0
    {
      if Stable(feed[i]) {
        RanksOrdered(RankOf(feed[i].tag), RankOf(feed[i].tag), RankOf(feed[i].tag));
        if picked.None? {
          picked := Some(feed[i]);
          at := i;
        } else if CompareRank(RankOf(feed[i].tag), RankOf(picked.value.tag)) > 0 {
          Overtaken(feed, i, picked.value);
          picked := Some(feed[i]);
          at := i;
        }
      }
    }
    if picked.Some? {
      forall i | 0 <= i < |feed| && Stable(feed[i])
        ensures !IsNewer(feed[i].tag, picked.value.tag)
                && (ReadVersion(feed[i].tag).Some? ==> ReadVersion(picked.value.tag).Some?)
      {
        NewerIsHigher(feed[i].tag, picked.value.tag);
        ReadableIsHigher(feed[i].tag, picked.value.tag);
      }
    }
  }

  lemma ReadableIsHigher(x: string, y: string)
    requires CompareRank(RankOf(x), RankOf(y)) <= 0
    ensures ReadVersion(x).Some? ==> ReadVersion(y).Some?
  {
    hide ReadVersion, CompareKey;
  }

  /** Everything that did not outrank the old best is outranked by what does. */
  lemma Overtaken(feed: seq<Entry>, i: nat, best: Entry)
    requires i < |feed| && CompareRank(RankOf(feed[i].tag), RankOf(best.tag)) > 0
    ensures forall j :: 0 <= j < i && CompareRank(RankOf(feed[j].tag), RankOf(best.tag)) <= 0
              ==> CompareRank(RankOf(feed[j].tag), RankOf(feed[i].tag)) < 0
  {
    hide RankOf, CompareRank;
    forall j | 0 <= j < i && CompareRank(RankOf(feed[j].tag), RankOf(best.tag)) <= 0
      ensures CompareRank(RankOf(feed[j].tag), RankOf(feed[i].tag)) < 0
    {
      var x, b, y := RankOf(feed[j].tag), RankOf(best.tag), RankOf(feed[i].tag);
      RanksOrdered(x, b, y);
      RanksOrdered(b, y, x);
      RanksOrdered(y, x, b);
    }
  }
}
