/**
 * The four ULID encoders (apps/chat, apps/gateway, apps/library and apps/mission-control, backend ids): split
 * 10 + 16 characters, joint 26 characters, byte-packed 128 bits, and the monotonic counter.  All are positional
 * numerals, so the theorems are about the number a string denotes.
 */
module Ulid {
  import opened Prelude

  // ----- positional numerals --------------------------------------------------------------------------------

  function Pow(b: nat, n: nat): nat {
    if n == 0 then 1 else b * Pow(b, n - 1)
  }

  /** The low `n` digits of `v` in base `b`, most significant first; `/` and `%` floor, as in Python. */
  function Digits(v: int, n: nat, b: nat): seq<nat>
    requires b >= 2
    decreases n
  {
    if n == 0 then [] else Digits(v / b, n - 1, b) + [v % b]
  }

  function Number(ds: seq<nat>, b: nat): nat {
    if ds == [] then 0 else Number(Front(ds), b) * b + Last(ds)
  }

  lemma {:induction false} PowPositive(b: nat, n: nat)
    requires b >= 2
    ensures Pow(b, n) >= 1
  {
    if n > 0 {
      PowPositive(b, n - 1);
      ProductPositive(b, Pow(b, n - 1));
    }
  }

  lemma ProductPositive(x: int, y: int)
    requires x >= 1 && y >= 1
    ensures x * y >= 1
  {
  }

  lemma {:induction false} PowAdds(b: nat, m: nat, n: nat)
    ensures Pow(b, m + n) == Pow(b, m) * Pow(b, n)
  {
    if m > 0 {
      PowAdds(b, m - 1, n);
      Reassociate(b, Pow(b, m - 1), Pow(b, n));
    }
  }

  lemma Reassociate(x: int, y: int, z: int)
    ensures x * (y * z) == (x * y) * z
  {
  }

  /** Quotient and remainder are the only ones in range. */
  lemma DivisionUnique(v: int, m: int, q: int, r: int)
    requires m >= 1 && v == q * m + r && 0 <= r < m
    ensures v / m == q && v % m == r
  {
    var d := v / m - q;
    assert v == (v / m) * m + v % m;
    assert d * m == r - v % m;
    ScaleUp(d, m);
  }

  lemma ScaleUp(d: int, m: int)
    requires m >= 1
    ensures d >= 1 ==> d * m >= m
    ensures d <= -1 ==> d * m <= -m
  {
    if d >= 1 {
      assert (d - 1) * m >= 0;
    } else if d <= -1 {
      assert (-d - 1) * m >= 0;
    }
  }

  lemma BelowProduct(n: nat, p: nat, b: nat, d: nat)
    requires n < p && d < b
    ensures n * b + d < b * p
  {
    ScaleUp(p - n, b);
    assert (p - n) * b == p * b - n * b == b * p - n * b;
  }

  /** The remainder modulo b·p splits into the remainder of the quotient modulo p and the last digit. */
  lemma RemainderSplits(v: int, b: nat, p: nat)
    requires b >= 2 && p >= 1
    ensures b * p >= 1 && v % (b * p) == ((v / b) % p) * b + v % b
  {
    var q, r := v / b, v % b;
    var high, low := q / p, q % p;
    ProductPositive(b, p);
    assert v == q * b + r && q == high * p + low;
    assert q * b == (high * p + low) * b == high * (b * p) + low * b;
    BelowProduct(low, p, b, r);
    DivisionUnique(v, b * p, high, low * b + r);
  }

  /** `n` digits denote the value modulo b^n. */
  lemma {:induction false} DigitsDenote(v: int, n: nat, b: nat)
    requires b >= 2
    ensures |Digits(v, n, b)| == n && Pow(b, n) >= 1
    ensures forall d | d in Digits(v, n, b) :: d < b
    ensures Number(Digits(v, n, b), b) == v % Pow(b, n)
    decreases n
  {
    PowPositive(b, n);
    if n > 0 {
      DigitsDenote(v / b, n - 1, b);
      assert Front(Digits(v, n, b)) == Digits(v / b, n - 1, b);
      RemainderSplits(v, b, Pow(b, n - 1));
    }
  }

  lemma LastDigit(n: nat, p: nat, b: nat, d: nat)
    requires n < p && d < b
    ensures n * b + d < b * p && (n * b + d) / b == n && (n * b + d) % b == d
  {
    BelowProduct(n, p, b, d);
    DivisionUnique(n * b + d, b, n, d);
  }

  /** The other way round: a digit string is the digits of the number it denotes. */
  lemma {:induction false} NumberRoundTrip(ds: seq<nat>, b: nat)
    requires b >= 2 && forall d | d in ds :: d < b
    ensures Digits(Number(ds, b), |ds|, b) == ds
    ensures Number(ds, b) < Pow(b, |ds|)
  {
    hide Digits, Pow;
    DigitsStep(Number(ds, b), |ds|, b);
    if ds != [] {
      var front := Front(ds);
      assert ds == front + [Last(ds)];
      assert Last(ds) in ds && forall d | d in front :: d in ds;
      NumberRoundTrip(front, b);
      LastDigit(Number(front, b), Pow(b, |front|), b, Last(ds));
    }
  }

  lemma DigitsStep(v: int, n: nat, b: nat)
    requires b >= 2
    ensures n > 0 ==> Digits(v, n, b) == Digits(v / b, n - 1, b) + [v % b] && Pow(b, n) == b * Pow(b, n - 1)
    ensures Digits(v, 0, b) == [] && Pow(b, 0) == 1
  {
  }

  lemma {:induction false} LowDigits(v: int, n: nat, k: nat, b: nat)
    requires b >= 2 && k <= n
    ensures |Digits(v, n, b)| == n && Digits(v, n, b)[n - k..] == Digits(v, k, b)
    decreases k
  {
    DigitsDenote(v, n, b);
    if k > 0 {
      LowDigits(v / b, n - 1, k - 1, b);
      assert Digits(v, n, b)[n - k..] == Digits(v / b, n - 1, b)[n - k..] + [v % b];
    }
  }

  lemma Shifted(x: int, p: int, f: int, b: int)
    ensures (x * p + f) * b == x * (b * p) + f * b
  {
  }

  lemma {:induction false} NumberConcat(x: seq<nat>, y: seq<nat>, b: nat)
    ensures Number(x + y, b) == Number(x, b) * Pow(b, |y|) + Number(y, b)
    decreases |y|
  {
    if y == [] {
      assert x + y == x;
    } else {
      var front := Front(y);
      assert Front(x + y) == x + front && Last(x + y) == Last(y);
      NumberConcat(x, front, b);
      Shifted(Number(x, b), Pow(b, |front|), Number(front, b), b);
    }
  }

  // ----- strings --------------------------------------------------------------------------------------------

  const CROCKFORD := "0123456789ABCDEFGHJKMNPQRSTVWXYZ"

  function Encoded(v: int, n: nat): string
    decreases n
  {
    if n == 0 then "" else Encoded(v / 32, n - 1) + [CROCKFORD[v % 32]]
  }

  lemma Step(v: int, n: nat)
    requires n > 0
    ensures Encoded(v, n) == Encoded(v / 32, n - 1) + [CROCKFORD[v % 32]]
    ensures Encoded(v, 0) == ""
  {
  }

  /** String comparison by code unit. */
  predicate Less(s: string, t: string) {
    t != "" && (s == "" || s[0] < t[0] || (s[0] == t[0] && Less(s[1..], t[1..])))
  }

  /** Crockford's base 32: the ten digits, then the Latin capitals without I, L, O and U, in code order. */
  predicate Symbol(c: char) {
    '0' <= c <= '9' || ('A' <= c <= 'Z' && c != 'I' && c != 'L' && c != 'O' && c != 'U')
  }

  lemma AlphabetIsCrockford()
    ensures |CROCKFORD| == 32
    ensures forall c: char :: c in CROCKFORD <==> Symbol(c)
    ensures forall i, k | 0 <= i < k < 32 :: CROCKFORD[i] < CROCKFORD[k]
  {
    forall i, k | 0 <= i < k < 32
      ensures CROCKFORD[i] < CROCKFORD[k]
    {
      AlphabetAscends(i, k);
    }
    forall c: char | Symbol(c)
      ensures c in CROCKFORD
    {
      var n := c as int;
      var i := if n <= 57 then n - 48 else if n < 73 then n - 55 else if n < 76 then n - 56 else if n < 79 then n - 57
               else if n < 85 then n - 58 else n - 59;
      assert CROCKFORD[i] == c;
    }
  }

  lemma AlphabetAscends(d: nat, e: nat)
    requires d < e < 32
    ensures CROCKFORD[d] < CROCKFORD[e]
    decreases e - d
  {
    assert forall i | 0 <= i < 31 :: CROCKFORD[i] < CROCKFORD[i + 1];
    if d + 1 < e {
      AlphabetAscends(d + 1, e);
    }
  }

  lemma {:induction false} LessSnoc(s: string, t: string, c: char, d: char)
    requires |s| == |t|
    ensures Less(s + [c], t + [d]) <==> Less(s, t) || (s == t && c < d)
  {
    if s != "" {
      assert (s + [c])[1..] == s[1..] + [c] && (t + [d])[1..] == t[1..] + [d];
      LessSnoc(s[1..], t[1..], c, d);
      assert s == [s[0]] + s[1..] && t == [t[0]] + t[1..];
    }
  }

  /** Comparing two fixed-length encodings compares the two values modulo 32^n; equality included. */
  lemma {:induction false} EncodingOrders(v: int, w: int, n: nat)
    ensures |Encoded(v, n)| == |Encoded(w, n)| == n && Pow(32, n) >= 1
    ensures Encoded(v, n) == Encoded(w, n) <==> v % Pow(32, n) == w % Pow(32, n)
    ensures Less(Encoded(v, n), Encoded(w, n)) <==> v % Pow(32, n) < w % Pow(32, n)
    decreases n
  {
    PowPositive(32, n);
    if n > 0 {
      EncodingOrders(v / 32, w / 32, n - 1);
      RemainderSplits(v, 32, Pow(32, n - 1));
      RemainderSplits(w, 32, Pow(32, n - 1));
      var s, t := Encoded(v / 32, n - 1), Encoded(w / 32, n - 1);
      var c, d := CROCKFORD[v % 32], CROCKFORD[w % 32];
      if v % 32 < w % 32 {
        AlphabetAscends(v % 32, w % 32);
      } else if w % 32 < v % 32 {
        AlphabetAscends(w % 32, v % 32);
      }
      LessSnoc(s, t, c, d);
      assert Encoded(v, n) == Encoded(w, n) <==> s == t && c == d by {
        assert Front(Encoded(v, n)) == s && Front(Encoded(w, n)) == t;
        assert Last(Encoded(v, n)) == c && Last(Encoded(w, n)) == d;
      }
    }
  }

  lemma DropDigit(a: int, p: nat, b: int)
    ensures (a * (32 * p) + b) / 32 == a * p + b / 32 && (a * (32 * p) + b) % 32 == b % 32
  {
    assert a * (32 * p) == (a * p) * 32;
    DivisionUnique(a * (32 * p) + b, 32, a * p + b / 32, b % 32);
  }

  /** Two fields written side by side are one number written in one piece. */
  lemma {:induction false} SplitIsJoint(a: int, m: nat, b: int, n: nat)
    requires 0 <= b < Pow(32, n)
    ensures Encoded(a, m) + Encoded(b, n) == Encoded(a * Pow(32, n) + b, m + n)
    decreases n
  {
    hide Encoded, Pow;
    Step(a, m + 1);
    Step(b, n + 1);
    PowStep(n);
    if n == 0 {
      assert Encoded(a, m) + "" == Encoded(a, m);
    } else {
      var p := Pow(32, n - 1);
      Step(b, n);
      Step(a * Pow(32, n) + b, m + n);
      DropDigit(a, p, b);
      SplitIsJoint(a, m, b / 32, n - 1);
      assert Encoded(a, m) + Encoded(b, n) == (Encoded(a, m) + Encoded(b / 32, n - 1)) + [CROCKFORD[b % 32]];
    }
  }

  lemma PowStep(n: nat)
    ensures Pow(32, 0) == 1 && (n > 0 ==> Pow(32, n) == 32 * Pow(32, n - 1))
  {
  }

  // ----- the encoders ---------------------------------------------------------------------------------------

  function Reversed(s: string): string {
    if s == "" then "" else Reversed(s[1..]) + [s[0]]
  }

  lemma {:induction false} ReversedSnoc(s: string, c: char)
    ensures Reversed(s + [c]) == [c] + Reversed(s)
  {
    if s != "" {
      assert (s + [c])[1..] == s[1..] + [c];
      ReversedSnoc(s[1..], c);
    }
  }

  /** divmod by 32, append, reverse at the end. */
  method EncodeDigits(value: int, length: nat) returns (s: string)
    ensures s == Encoded(value, length)
  {
    var v, chars, i := value, "", 0;
    while i < length
      invariant 0 <= i <= length
      invariant Encoded(v, length - i) + Reversed(chars) == Encoded(value, length)
    {
      ReversedSnoc(chars, CROCKFORD[v % 32]);
      Step(v, length - i);
      chars := chars + [CROCKFORD[v % 32]];
      v, i := v / 32, i + 1;
    }
    Step(v, 1);
    s := Reversed(chars);
  }

  /** Chat: ten characters of time, then sixteen of randomness. */
  method ChatUlid(ms: int, rand: int) returns (s: string)
    ensures s == Encoded(ms, 10) + Encoded(rand, 16)
  {
    var time := EncodeDigits(ms, 10);
    var noise := EncodeDigits(rand, 16);
    s := time + noise;
  }

  const TWO_TO_48 := 281474976710656
  const TWO_TO_50 := 1125899906842624
  const TWO_TO_80 := 1208925819614629174706176

  /** Gateway: one 26-character number, time shifted over the random bits. */
  method GatewayUlid(ms: int, rand: nat) returns (s: string)
    requires rand < TWO_TO_80
    ensures s == Encoded(ms * TWO_TO_80 + rand, 26)
  {
    hide Encoded;
    var value := ms * TWO_TO_80 + rand;
    var out, i := "", 0;
    ghost var all := value;
    while i < 26
      invariant 0 <= i <= 26
      invariant Encoded(value, 26 - i) + Reversed(out) == Encoded(all, 26)
    {
      ReversedSnoc(out, CROCKFORD[value % 32]);
      Step(value, 26 - i);
      out := out + [CROCKFORD[value % 32]];
      value, i := value / 32, i + 1;
    }
    Step(value, 1);
    s := Reversed(out);
  }

  /**
   * Library: the low 48 bits of the clock and ten random bytes, packed big-endian; packing a clock of 64 bits or more
   * raises.
   */
  method LibraryUlid(ms: int, rand: seq<nat>) returns (s: Option<string>)
    requires |rand| == 10 && forall byte | byte in rand :: byte < 256
    ensures s.Some? <==> 0 <= ms < Pow(256, 8)
    ensures s.Some? ==> s.value == Encoded(Number(Digits(ms, 6, 256) + rand, 256), 26)
  {
    hide Encoded, Digits, Number, Pow;
    if ms < 0 || ms >= Pow(256, 8) {
      return None;
    }
    LowDigits(ms, 8, 6, 256);
    var packed := Digits(ms, 8, 256)[2..] + rand;
    var text := EncodeDigits(Number(packed, 256), 26);
    return Some(text);
  }

  lemma Powers()
    ensures Pow(32, 16) == Pow(256, 10) == TWO_TO_80
    ensures Pow(32, 10) == TWO_TO_50 && Pow(256, 6) == TWO_TO_48
    ensures Pow(32, 26) == TWO_TO_50 * TWO_TO_80
  {
    PowAdds(32, 10, 16);
  }

  /** The number a 26-character ULID denotes. */
  function Denoted(ms: int, rand: int): nat {
    (ms % TWO_TO_50) * TWO_TO_80 + rand % TWO_TO_80
  }

  /** Chat's split encoding, for any clock, is the gateway's joint one. */
  lemma ChatIsGateway(ms: int, rand: nat)
    requires rand < TWO_TO_80
    ensures Encoded(ms, 10) + Encoded(rand, 16) == Encoded(ms * TWO_TO_80 + rand, 26)
  {
    hide Encoded, Pow;
    Powers();
    SplitIsJoint(ms, 10, rand, 16);
  }

  /** What library packs: 48 bits of the clock over the random bits. */
  lemma Packed(ms: int, rand: seq<nat>)
    requires |rand| == 10 && forall byte | byte in rand :: byte < 256
    ensures Number(rand, 256) < TWO_TO_80
    ensures Number(Digits(ms, 6, 256) + rand, 256) == (ms % TWO_TO_48) * TWO_TO_80 + Number(rand, 256)
  {
    hide Number, Digits, Pow;
    Powers();
    NumberRoundTrip(rand, 256);
    NumberConcat(Digits(ms, 6, 256), rand, 256);
    DigitsDenote(ms, 6, 256);
  }

  /**
   * Library's packing keeps 48 bits of the clock where the others keep 50: the ids agree exactly when those bits agree.
   */
  lemma LibraryAgreesIff(ms: int, rand: seq<nat>)
    requires |rand| == 10 && forall byte | byte in rand :: byte < 256
    ensures Encoded(Number(Digits(ms, 6, 256) + rand, 256), 26) == Encoded(ms, 10) + Encoded(Number(rand, 256), 16) <==>
            ms % TWO_TO_50 == ms % TWO_TO_48
  {
    hide Encoded, Number, Digits, Pow;
    var r, low := Number(rand, 256), ms % TWO_TO_48;
    Packed(ms, rand);
    ChatIsGateway(low, r);
    Powers();
    EncodingOrders(low, ms, 10);
    assert (Encoded(low, 10) + Encoded(r, 16))[..10] == Encoded(low, 10);
    assert (Encoded(ms, 10) + Encoded(r, 16))[..10] == Encoded(ms, 10);
  }

  lemma AsOneNumber(ms: int, rand: int)
    ensures Encoded(ms, 10) + Encoded(rand, 16) == Encoded(Denoted(ms, rand), 26)
    ensures Denoted(ms, rand) < TWO_TO_50 * TWO_TO_80
  {
    hide Encoded, Pow;
    var high, low := ms % TWO_TO_50, rand % TWO_TO_80;
    Powers();
    EncodingOrders(ms, high, 10);
    EncodingOrders(rand, low, 16);
    ChatIsGateway(high, low);
  }

  /** Two 26-character ids compare as the numbers they denote, whatever the clocks and counters. */
  lemma UlidOrders(ms: int, rand: int, ms': int, rand': int)
    ensures var s, t := Encoded(ms, 10) + Encoded(rand, 16), Encoded(ms', 10) + Encoded(rand', 16);
            && (s == t <==> Denoted(ms, rand) == Denoted(ms', rand'))
            && (Less(s, t) <==> Denoted(ms, rand) < Denoted(ms', rand'))
  {
    hide Encoded, Pow, Denoted, Less;
    AsOneNumber(ms, rand);
    AsOneNumber(ms', rand');
    Powers();
    EncodingOrders(Denoted(ms, rand), Denoted(ms', rand'), 26);
  }

  // ----- Mission Control's monotonic source -----------------------------------------------------------------

  datatype Counter = Counter(ms: int, rand: nat)

  datatype Call = Call(ms: int, noise: nat)

  function Next(c: Counter, call: Call): Counter {
    if call.ms == c.ms then c.(rand := c.rand + 1) else Counter(call.ms, call.noise)
  }

  function Shown(c: Counter): string {
    Encoded(c.ms, 10) + Encoded(c.rand, 16)
  }

  class UlidSource {
    var lastMs: int
    var lastRand: nat

    constructor ()
      ensures State() == Counter(0, 0)
    {
      lastMs, lastRand := 0, 0;
    }

    function State(): Counter
      reads this
    {
      Counter(lastMs, lastRand)
    }

    method Mint(now: int, noise: nat) returns (s: string)
      modifies this
      ensures State() == Next(old(State()), Call(now, noise))
      ensures s == Shown(State())
    {
      hide Encoded;
      var ms, rand := now, 0;
      if ms == lastMs {
        lastRand := lastRand + 1;
        rand := lastRand;
      } else {
        lastMs := ms;
        rand := noise;
        lastRand := rand;
      }
      var time, i := "", 0;
      while i < 10
        invariant 0 <= i <= 10
        modifies {}
        invariant Encoded(ms, 10 - i) + time == Encoded(now, 10)
      {
        Step(ms, 10 - i);
        time := [CROCKFORD[ms % 32]] + time;
        ms, i := ms / 32, i + 1;
      }
      Step(ms, 1);
      var count: int, tail := rand, "";
      i := 0;
      while i < 16
        invariant 0 <= i <= 16
        modifies {}
        invariant Encoded(count, 16 - i) + tail == Encoded(rand, 16)
      {
        Step(count, 16 - i);
        tail := [CROCKFORD[count % 32]] + tail;
        count, i := count / 32, i + 1;
      }
      Step(count, 1);
      s := time + tail;
    }
  }

  /** The counters a run goes through, the present one first. */
  function Trail(c: Counter, calls: seq<Call>): seq<Counter>
    decreases |calls|
  {
    [c] + if calls == [] then [] else Trail(Next(c, calls[0]), calls[1..])
  }

  ghost predicate StrictlyIncreasing(cs: seq<Counter>) {
    forall i, j | 0 <= i < j < |cs| :: Less(Shown(cs[i]), Shown(cs[j]))
  }

  /**
   * In the same millisecond the 80-bit counter is short of its end; otherwise the clock went forward in the 50 bits
   * a string shows, or those bits repeat and the fresh noise is larger.
   */
  predicate Advances(c: Counter, call: Call) {
    if call.ms == c.ms then c.rand % TWO_TO_80 + 1 < TWO_TO_80
    else c.ms % TWO_TO_50 < call.ms % TWO_TO_50
         || (c.ms % TWO_TO_50 == call.ms % TWO_TO_50 && c.rand % TWO_TO_80 < call.noise % TWO_TO_80)
  }

  predicate Steady(c: Counter, calls: seq<Call>)
    decreases |calls|
  {
    calls == [] || (Advances(c, calls[0]) && Steady(Next(c, calls[0]), calls[1..]))
  }

  lemma OneCall(c: Counter, call: Call)
    ensures Denoted(c.ms, c.rand) < Denoted(Next(c, call).ms, Next(c, call).rand) <==> Advances(c, call)
  {
    if call.ms == c.ms {
      var q, r := c.rand / TWO_TO_80, c.rand % TWO_TO_80;
      assert c.rand + 1 == q * TWO_TO_80 + (r + 1);
      if r + 1 < TWO_TO_80 {
        DivisionUnique(c.rand + 1, TWO_TO_80, q, r + 1);
      } else {
        DivisionUnique(c.rand + 1, TWO_TO_80, q + 1, 0);
      }
    }
  }

  lemma {:induction false} TrailRises(c: Counter, calls: seq<Call>)
    requires Steady(c, calls)
    ensures forall i | 0 < i < |Trail(c, calls)| ::
              Denoted(c.ms, c.rand) < Denoted(Trail(c, calls)[i].ms, Trail(c, calls)[i].rand)
    ensures StrictlyIncreasing(Trail(c, calls))
    decreases |calls|
  {
    hide Encoded, Less, Denoted;
    if calls != [] {
      var next := Next(c, calls[0]);
      var rest := Trail(next, calls[1..]);
      TrailRises(next, calls[1..]);
      OneCall(c, calls[0]);
      assert Trail(c, calls) == [c] + rest && rest[0] == next;
      forall j | 0 <= j < |rest|
        ensures Denoted(c.ms, c.rand) < Denoted(rest[j].ms, rest[j].rand) && Less(Shown(c), Shown(rest[j]))
      {
        UlidOrders(c.ms, c.rand, rest[j].ms, rest[j].rand);
      }
    }
  }

  lemma {:induction false} RisesOnlyIfSteady(c: Counter, calls: seq<Call>)
    requires StrictlyIncreasing(Trail(c, calls))
    ensures Steady(c, calls)
    decreases |calls|
  {
    hide Encoded, Less, Denoted;
    if calls != [] {
      var next := Next(c, calls[0]);
      var rest := Trail(next, calls[1..]);
      assert Trail(c, calls) == [c] + rest && rest[0] == next;
      assert Less(Shown(Trail(c, calls)[0]), Shown(Trail(c, calls)[1]));
      UlidOrders(c.ms, c.rand, next.ms, next.rand);
      OneCall(c, calls[0]);
      assert StrictlyIncreasing(rest) by {
        forall i, j | 0 <= i < j < |rest|
          ensures Less(Shown(rest[i]), Shown(rest[j]))
        {
          assert Less(Shown(Trail(c, calls)[i + 1]), Shown(Trail(c, calls)[j + 1]));
        }
      }
      RisesOnlyIfSteady(next, calls[1..]);
    }
  }

  /** The ids of a run are strictly increasing, each below every later one, exactly when the run is steady. */
  lemma MonotonicIff(c: Counter, calls: seq<Call>)
    ensures StrictlyIncreasing(Trail(c, calls)) <==> Steady(c, calls)
  {
    if Steady(c, calls) {
      TrailRises(c, calls);
    }
    if StrictlyIncreasing(Trail(c, calls)) {
      RisesOnlyIfSteady(c, calls);
    }
  }

  /** Until the 50 bits run out, advancing is what it says: the clock does not go back, the counter does not wrap. */
  lemma AdvancesBelowTheEnd(c: Counter, call: Call)
    requires 0 <= c.ms < TWO_TO_50 && 0 <= call.ms < TWO_TO_50
    ensures Advances(c, call) <==> call.ms >= c.ms && (call.ms == c.ms ==> c.rand % TWO_TO_80 + 1 < TWO_TO_80)
  {
  }
}
