/** The key one inbound payment is recorded under. */
module DepositKeys {
  import opened Common

  const MAX_INT64: nat := 0x7FFF_FFFF_FFFF_FFFF

  /** The low 12 bits of an operation ID, per SEP-0035: its place in the transaction. */
  const PLACES: nat := 0x1000

  predicate IsDigit(c: char) { '0' <= c <= '9' }

  /** strconv.FormatInt, base 10, of a number that is not negative. */
  function Decimal(n: nat): (s: string)
    ensures |s| > 0 && forall i :: 0 <= i < |s| ==> IsDigit(s[i])
  {
    var d := ('0' as int + n % 10) as char;
    if n < 10 then [d] else Decimal(n / 10) + [d]
  }

  function Value(s: string): nat
    requires forall i :: 0 <= i < |s| ==> IsDigit(s[i])
  {
    if s == [] then 0
    else
      var c := s[|s| - 1];
      assert IsDigit(c);
      10 * Value(s[..|s| - 1]) + (c as int - '0' as int)
  }

  /** strconv.ParseInt(s, 10, 64): an optional sign and digits, within int64. */
  function ParseInt(s: string): Option<int> {
    var signed := s != [] && (s[0] == '-' || s[0] == '+');
    var digits := if signed then s[1..] else s;
    if digits == [] || exists i :: 0 <= i < |digits| && !IsDigit(digits[i]) then None
    else
      var v: int := Value(digits);
      if signed && s[0] == '-' then (if v > MAX_INT64 + 1 then None else Some(-v))
      else if v > MAX_INT64 then None else Some(v)
  }

  lemma {:induction false} ValueOfDecimal(n: nat)
    ensures Value(Decimal(n)) == n
  {
    var s := Decimal(n);
    if n < 10 {
      assert s[..|s| - 1] == [];
    } else {
      assert s[..|s| - 1] == Decimal(n / 10);
      ValueOfDecimal(n / 10);
    }
  }

  lemma ParseOfDecimal(n: nat)
    requires n <= MAX_INT64
    ensures ParseInt(Decimal(n)) == Some(n)
  {
    ValueOfDecimal(n);
    assert IsDigit(Decimal(n)[0]);
  }

  /** A sign is read, and what does not fit int64 is refused. */
  lemma ParseMinus(n: nat)
    ensures var minus: int := 0 - n;
            ParseInt("-" + Decimal(n)) == if n <= MAX_INT64 + 1 then Some(minus) else None
  {
    ValueOfDecimal(n);
    assert ("-" + Decimal(n))[1..] == Decimal(n);
  }

  lemma ParsePlus(n: nat)
    ensures var plus: int := n;
            ParseInt("+" + Decimal(n)) == if n <= MAX_INT64 then Some(plus) else None
    ensures n > MAX_INT64 ==> ParseInt(Decimal(n)) == None
  {
    ValueOfDecimal(n);
    assert IsDigit(Decimal(n)[0]);
    assert ("+" + Decimal(n))[1..] == Decimal(n);
  }

  /** Where an operation sits in its transaction, as far as its ID tells. In two's
      complement the low bits of a negative number are its Euclidean remainder. */
  datatype Place = At(index: nat) | Raw(id: string)

  function PlaceOf(opId: string): Place {
    var id := ParseInt(opId);
    if id.None? then Raw(opId) else At(id.value % PLACES)
  }

  function Suffix(p: Place): string {
    match p
    case At(index) => Decimal(index)
    case Raw(id) => id
  }

  function DepositKey(hash: string, opId: string, opCount: int): string {
    if opCount == 1 then hash else hash + ":" + Suffix(PlaceOf(opId))
  }

  /** strings.Cut(key, ":"), before. */
  function CutHash(key: string): string {
    if key == [] || key[0] == ':' then [] else [key[0]] + CutHash(key[1..])
  }

  predicate IsHash(hash: string) { ':' !in hash }

  lemma {:induction false} CutAt(hash: string, rest: string)
    requires IsHash(hash) && (rest == [] || rest[0] == ':')
    ensures CutHash(hash + rest) == hash
  {
    if hash != [] {
      assert (hash + rest)[1..] == hash[1..] + rest;
      CutAt(hash[1..], rest);
    } else {
      assert hash + rest == rest;
    }
  }

  /** The sweep recovers the transaction hash from any key. */
  lemma KeyRecoversHash(hash: string, opId: string, opCount: int)
    requires IsHash(hash)
    ensures CutHash(DepositKey(hash, opId, opCount)) == hash
  {
    if opCount == 1 {
      CutAt(hash, []);
      assert hash + [] == hash;
    } else {
      CutAt(hash, ":" + Suffix(PlaceOf(opId)));
      assert DepositKey(hash, opId, opCount) == hash + (":" + Suffix(PlaceOf(opId)));
    }
  }

  /** A transaction's only operation is keyed by the hash itself; an ID that is no
      number is kept whole. */
  lemma KeyIs(hash: string, opId: string, opCount: int)
    ensures opCount == 1 ==> DepositKey(hash, opId, opCount) == hash
    ensures opCount != 1 && ParseInt(opId).None? ==> DepositKey(hash, opId, opCount) == hash + ":" + opId
  {
  }

  lemma SuffixInjective(a: string, b: string)
    requires Suffix(PlaceOf(a)) == Suffix(PlaceOf(b))
    ensures PlaceOf(a) == PlaceOf(b)
  {
    if PlaceOf(a).At? { ParseOfDecimal(PlaceOf(a).index); }
    if PlaceOf(b).At? { ParseOfDecimal(PlaceOf(b).index); }
  }

  /** Two keys are equal exactly when the hashes are and, in a transaction of
      several operations, so are the operations' places. */
  lemma KeysEqualIff(hashA: string, opA: string, hashB: string, opB: string, count: int)
    requires IsHash(hashA) && IsHash(hashB)
    ensures DepositKey(hashA, opA, count) == DepositKey(hashB, opB, count)
       <==> hashA == hashB && (count == 1 || PlaceOf(opA) == PlaceOf(opB))
  {
    KeyRecoversHash(hashA, opA, count);
    KeyRecoversHash(hashB, opB, count);
    if hashA == hashB && count != 1 && DepositKey(hashA, opA, count) == DepositKey(hashB, opB, count) {
      var n := |hashA| + 1;
      assert DepositKey(hashA, opA, count)[n..] == Suffix(PlaceOf(opA));
      assert DepositKey(hashB, opB, count)[n..] == Suffix(PlaceOf(opB));
      SuffixInjective(opA, opB);
    }
  }

  /** A payment operation as Horizon reports it: its ID is its ledger and
      transaction followed by its place, as SEP-0035 lays it out. */
  datatype Payment = Payment(hash: string, transaction: nat, place: nat, opCount: nat) {
    function Id(): nat { transaction * PLACES + place }
    function Key(): string { DepositKey(hash, Decimal(Id()), opCount) }
  }

  const KEY_OF: Payment -> string := (p: Payment) => p.Key()

  predicate Sound(p: Payment) {
    IsHash(p.hash) && 1 <= p.place <= p.opCount && p.place < PLACES && p.Id() <= MAX_INT64
  }

  /** A hash names one transaction. */
  predicate SameTransaction(p: Payment, q: Payment) {
    p.hash == q.hash ==> p.transaction == q.transaction && p.opCount == q.opCount
  }

  lemma PlaceOfId(p: Payment)
    requires Sound(p)
    ensures PlaceOf(Decimal(p.Id())) == At(p.place)
  {
    RemainderOf(p.transaction, PLACES, p.place);
    ParseOfDecimal(p.Id());
  }

  /** Of several, each is keyed by the hash and its place, in decimal. */
  lemma PaymentKeyIs(p: Payment)
    requires Sound(p)
    ensures p.Key() == if p.opCount == 1 then p.hash else p.hash + ":" + Decimal(p.place)
  {
    PlaceOfId(p);
  }

  /** Distinct payment operations get distinct keys. */
  lemma KeysAreInjective(p: Payment, q: Payment)
    requires Sound(p) && Sound(q) && SameTransaction(p, q) && p.Key() == q.Key()
    ensures p == q
  {
    KeyRecoversHash(p.hash, Decimal(p.Id()), p.opCount);
    KeyRecoversHash(q.hash, Decimal(q.Id()), q.opCount);
    KeysEqualIff(p.hash, Decimal(p.Id()), q.hash, Decimal(q.Id()), p.opCount);
    PlaceOfId(p);
    PlaceOfId(q);
  }
}
