/** Provable fairness (internal/engine/fair.go): the crash sampler, the commitment preimage and its
    verification. SHA-256 is a parameter `sha`; nothing is assumed of it except where a lemma says so. */
module Fair {
  import opened Wrappers
  import opened GoInt

  const ROLLS := 0x1_0000_0000

  // ---------------------------------------------------------------- the crash sampler

  /** sampleCrash as a function of the 64-bit random word it draws, in exact arithmetic. */
  function SampleCrash(v: nat): (crash: int)
    ensures 100 <= crash <= 99 * ROLLS + 1
  {
    var n := v % ROLLS;
    if 100 * n < ROLLS then 100
    else
      var crash := 99 * ROLLS / (ROLLS - n) + 1;
      if crash < 100 then 100 else crash
  }

  /** The rolls that let a target of `m` basis points survive. */
  ghost function Survivors(m: int): set<nat> {
    set n: nat | 0 <= n < ROLLS && SampleCrash(n) >= m
  }

  lemma {:induction false} IntervalCard(s: set<nat>, lo: nat, hi: nat)
    requires lo <= hi
    requires forall n: nat :: n in s <==> lo <= n < hi
    ensures |s| == hi - lo
    decreases hi
  {
    if lo == hi {
      assert s == {};
    } else {
      IntervalCard(s - {hi - 1}, lo, hi - 1);
    }
  }

  lemma DivAtLeast(a: nat, k: nat, q: nat)
    requires k > 0 && q > 0
    ensures a / k >= q <==> k <= a / q
  {
    assert a / k >= q <==> a >= q * k by { MulDiv(a, k, q); }
    assert a / q >= k <==> a >= k * q by { MulDiv(a, q, k); }
  }

  lemma MulDiv(a: nat, k: nat, q: nat)
    requires k > 0
    ensures a / k >= q <==> a >= q * k
  {
    assert a == k * (a / k) + a % k;
    if a / k >= q {
      assert k * (a / k) >= k * q;
    } else {
      assert k * (a / k) <= k * (q - 1);
    }
  }

  /** The rolls that crash at once. */
  lemma LowRoll(k: nat, m: int)
    requires 100 * k > 99 * ROLLS && m >= 101
    ensures k > 99 * ROLLS / (m - 1)
  {
    MulDiv(99 * ROLLS, m - 1, k);
    MulAtLeast(k, 100, m - 1);
  }

  lemma MulAtLeast(k: nat, a: nat, b: nat)
    requires a <= b
    ensures k * a <= k * b
  {
  }

  /** A word survives `m` exactly when its roll, the word modulo 2^32, is one of the last `99 * ROLLS / (m - 1)`
      rolls. */
  lemma SurvivesIff(v: nat, m: int)
    requires m >= 101
    ensures SampleCrash(v) >= m <==> ROLLS - v % ROLLS <= 99 * ROLLS / (m - 1)
  {
    var n := v % ROLLS;
    if 100 * n < ROLLS {
      LowRoll(ROLLS - n, m);
    } else {
      DivAtLeast(99 * ROLLS, ROLLS - n, m - 1);
    }
  }

  /** The sampler's exact survival function: for every target, so many of the 2^32 rolls reach it. */
  lemma SurvivalCount(m: int)
    requires m >= 101
    ensures |Survivors(m)| == 99 * ROLLS / (m - 1)
  {
    var q := 99 * ROLLS / (m - 1);
    FewSurvivors(m);
    forall n: nat ensures n in Survivors(m) <==> ROLLS - q <= n < ROLLS {
      if n < ROLLS { SurvivesIff(n, m); }
    }
    IntervalCard(Survivors(m), ROLLS - q, ROLLS);
  }

  /** The 64-bit words, in so many blocks of 2^32, that let a target survive. */
  ghost function SurvivingWords(m: int, blocks: nat): set<nat> {
    set v: nat | 0 <= v < blocks * ROLLS && SampleCrash(v) >= m
  }

  /** The survivors of one block are its last words. */
  lemma SurvivesInBlock(v: nat, m: int, start: nat)
    requires m >= 101 && start % ROLLS == 0 && start <= v < start + ROLLS
    ensures SampleCrash(v) >= m <==> start + ROLLS - 99 * ROLLS / (m - 1) <= v
  {
    assert v % ROLLS == v - start;
    SurvivesIff(v, m);
  }

  lemma BlockSurvivors(m: int, start: nat, last: set<nat>)
    requires m >= 101 && start % ROLLS == 0
    requires forall v: nat :: v in last <==> start <= v < start + ROLLS && SampleCrash(v) >= m
    ensures |last| == 99 * ROLLS / (m - 1)
  {
    var q := 99 * ROLLS / (m - 1);
    FewSurvivors(m);
    forall v: nat ensures v in last <==> start + ROLLS - q <= v < start + ROLLS {
      if start <= v < start + ROLLS { SurvivesInBlock(v, m, start); }
    }
    IntervalCard(last, start + ROLLS - q, start + ROLLS);
  }

  lemma {:induction false} BlockCount(m: int, blocks: nat)
    requires m >= 101
    ensures |SurvivingWords(m, blocks)| == blocks * (99 * ROLLS / (m - 1))
  {
    if blocks == 0 {
      assert SurvivingWords(m, 0) == {};
    } else {
      BlockCount(m, blocks - 1);
      var before, all := SurvivingWords(m, blocks - 1), SurvivingWords(m, blocks);
      BlockSurvivors(m, (blocks - 1) * ROLLS, all - before);
      AddCards(before, all);
      OneMore(blocks, 99 * ROLLS / (m - 1));
    }
  }

  lemma AddCards(before: set<nat>, all: set<nat>)
    requires before <= all
    ensures |all| == |before| + |all - before|
  {
    assert all == before + (all - before);
  }

  lemma OneMore(n: int, q: int)
    ensures n * q == (n - 1) * q + q
  {
  }

  lemma FewSurvivors(m: int)
    requires m >= 101
    ensures 0 <= 99 * ROLLS / (m - 1) <= ROLLS
  {
    MulDiv(99 * ROLLS, m - 1, ROLLS + 1);
    assert (ROLLS + 1) * (m - 1) >= (ROLLS + 1) * 100;
  }

  /** Over all the 2^64 words that can be drawn, 2^32 times as many. */
  lemma WordCount(m: int)
    requires m >= 101
    ensures |SurvivingWords(m, ROLLS)| == ROLLS * (99 * ROLLS / (m - 1))
    ensures forall v: nat :: v in SurvivingWords(m, ROLLS) <==> v < 0x1_0000_0000_0000_0000 && SampleCrash(v) >= m
  {
    BlockCount(m, ROLLS);
    assert ROLLS * ROLLS == 0x1_0000_0000_0000_0000;
  }

  lemma EdgeArithmetic(m: nat, q: nat, n: nat)
    requires m >= 101 && n > 0
    requires q * (m - 1) <= 99 * n
    ensures m * q < 100 * n
  {
    assert q * 100 <= q * (m - 1);
    assert m * q == q * (m - 1) + q;
  }

  /** The sampler's own odds favour the house at every target: stake `m` for each roll that reaches
      `m` is less than one full stake per roll. */
  lemma SamplerFavoursHouse(m: int)
    requires m >= 101
    ensures m * |Survivors(m)| < 100 * ROLLS
  {
    SurvivalCount(m);
    var q := 99 * ROLLS / (m - 1);
    MulDiv(99 * ROLLS, m - 1, q);
    EdgeArithmetic(m, q, ROLLS);
  }

  // ---------------------------------------------------------------- printing

  function Digit(d: nat): char
    requires d < 10
  {
    (48 + d) as char
  }

  /** `%d` of a non-negative number. */
  function Decimal(n: nat): (s: string)
    ensures |s| > 0
  {
    if n < 10 then [Digit(n)] else Decimal(n / 10) + [Digit(n % 10)]
  }

  /** `%d`. */
  function Signed(i: int): string {
    if i < 0 then "-" + Decimal(-i) else Decimal(i)
  }

  /** `%02d`, whose width counts a minus sign. */
  function Padded(i: int): string {
    if 0 <= i < 10 then "0" + Decimal(i) else Signed(i)
  }

  function FormatMult(bp: int): string {
    Signed(Quot(bp, 100)) + ("." + Padded(Rem(bp, 100)))
  }

  function Preimage(gameId: int, crash: int, salt: string): string {
    "GAME-" + (Signed(gameId) + ("-MULT-" + (FormatMult(crash) + ("-" + salt))))
  }

  /** Commit: the preimage and its hash. */
  function Commit(sha: string -> string, gameId: int, crash: int, salt: string): (string, string) {
    var preimage := Preimage(gameId, crash, salt);
    (preimage, sha(preimage))
  }

  predicate Verify(sha: string -> string, gameId: int, crash: int, salt: string, commitHash: string) {
    Commit(sha, gameId, crash, salt).1 == commitHash
  }

  // ---------------------------------------------------------------- parsing

  datatype Opening = Opening(gameId: nat, crash: nat, salt: string)

  predicate IsDigit(c: char) { '0' <= c <= '9' }

  function DigitCount(s: string): (k: nat)
    ensures k <= |s|
    ensures forall i :: 0 <= i < k ==> IsDigit(s[i])
    ensures k < |s| ==> !IsDigit(s[k])
  {
    if s != [] && IsDigit(s[0]) then 1 + DigitCount(s[1..]) else 0
  }

  predicate AllDigits(s: string) { forall i :: 0 <= i < |s| ==> IsDigit(s[i]) }

  function ValueOf(c: char): nat
    requires IsDigit(c)
  {
    c as int - 48
  }

  function Value(s: string): nat
    requires AllDigits(s)
  {
    if s == [] then 0 else 10 * Value(s[..|s| - 1]) + ValueOf(s[|s| - 1])
  }

  /** A numeral as `%d` prints it: non-empty and without a leading zero. */
  predicate Canonical(s: string) {
    AllDigits(s) && s != [] && (s[0] == '0' ==> |s| == 1)
  }

  function TakeNumber(s: string): Option<(nat, string)> {
    var k := DigitCount(s);
    if Canonical(s[..k]) then Some((Value(s[..k]), s[k..])) else None
  }

  function Strip(prefix: string, s: string): Option<string> {
    if prefix <= s then Some(s[|prefix|..]) else None
  }

  /** Reads "x.yy" followed by the rest. */
  function TakeMult(s: string): Option<(nat, string)> {
    match TakeNumber(s)
    case None => None
    case Some((whole, rest)) =>
      if |rest| >= 3 && rest[0] == '.' && IsDigit(rest[1]) && IsDigit(rest[2])
      then Some((100 * whole + (10 * ValueOf(rest[1]) + ValueOf(rest[2])), rest[3..]))
      else None
  }

  /** The inverse of Preimage, written without looking at it: what a verifying client would run. */
  function Parse(s: string): Option<Opening> {
    match Strip("GAME-", s)
    case None => None
    case Some(s1) =>
      match TakeNumber(s1)
      case None => None
      case Some((gameId, s2)) =>
        match Strip("-MULT-", s2)
        case None => None
        case Some(s3) =>
          match TakeMult(s3)
          case None => None
          case Some((crash, s4)) =>
            match Strip("-", s4)
            case None => None
            case Some(salt) => Some(Opening(gameId, crash, salt))
  }

  // ---------------------------------------------------------------- printing and parsing agree

  lemma {:induction false} DecimalIsCanonical(n: nat)
    ensures Canonical(Decimal(n)) && Value(Decimal(n)) == n
    ensures Decimal(n)[0] == '0' <==> n == 0
  {
    if n < 10 {
      assert Decimal(n)[..0] == [];
    } else {
      DecimalIsCanonical(n / 10);
      var s := Decimal(n);
      assert s[..|s| - 1] == Decimal(n / 10);
    }
  }

  lemma {:induction false} CanonicalIsDecimal(s: string)
    requires Canonical(s)
    ensures Decimal(Value(s)) == s
    ensures s[0] != '0' ==> Value(s) > 0
  {
    var init, last := s[..|s| - 1], s[|s| - 1];
    if |s| == 1 {
      assert init == [];
      assert s == [Digit(ValueOf(last))];
    } else {
      CanonicalIsDecimal(init);
      assert s == init + [Digit(ValueOf(last))];
    }
  }

  lemma {:induction false} DigitCountOf(ds: string, rest: string)
    requires AllDigits(ds) && (rest == [] || !IsDigit(rest[0]))
    ensures DigitCount(ds + rest) == |ds|
  {
    if ds == [] {
      assert ds + rest == rest;
    } else {
      assert (ds + rest)[1..] == ds[1..] + rest;
      DigitCountOf(ds[1..], rest);
    }
  }

  lemma TakeDecimal(n: nat, rest: string)
    requires rest == [] || !IsDigit(rest[0])
    ensures TakeNumber(Decimal(n) + rest) == Some((n, rest))
  {
    DecimalIsCanonical(n);
    DigitCountOf(Decimal(n), rest);
    var s := Decimal(n) + rest;
    assert s[..|Decimal(n)|] == Decimal(n) && s[|Decimal(n)|..] == rest;
  }

  /** The two digits after the point. */
  function Cents(bp: nat): string { [Digit(bp % 100 / 10), Digit(bp % 100 % 10)] }

  lemma PaddedIsCents(bp: nat)
    ensures Padded(bp % 100) == Cents(bp)
  {
    var r := bp % 100;
    if r >= 10 {
      assert Decimal(r / 10) == [Digit(r / 10)];
    }
  }

  lemma FormatMultShape(bp: nat)
    ensures FormatMult(bp) == Decimal(bp / 100) + ("." + Cents(bp))
  {
    assert Rem(bp, 100) == bp % 100;
    PaddedIsCents(bp);
  }

  lemma ReadCents(bp: nat, rest: string)
    ensures var tail := "." + Cents(bp) + rest;
            |tail| >= 3 && tail[0] == '.' && IsDigit(tail[1]) && IsDigit(tail[2]) && tail[3..] == rest
            && 10 * ValueOf(tail[1]) + ValueOf(tail[2]) == bp % 100
  {
    var tail := "." + Cents(bp) + rest;
    assert tail[1] == Digit(bp % 100 / 10) && tail[2] == Digit(bp % 100 % 10);
  }

  lemma TakeFormatted(bp: nat, rest: string)
    ensures TakeMult(FormatMult(bp) + rest) == Some((bp, rest))
  {
    var tail := "." + Cents(bp) + rest;
    FormatMultShape(bp);
    Assoc(Decimal(bp / 100), "." + Cents(bp), rest);
    ReadCents(bp, rest);
    TakeDecimal(bp / 100, tail);
    TakeMultOf(FormatMult(bp) + rest, bp / 100, tail);
  }

  lemma TakeMultOf(s: string, whole: nat, tail: string)
    requires TakeNumber(s) == Some((whole, tail))
    requires |tail| >= 3 && tail[0] == '.' && IsDigit(tail[1]) && IsDigit(tail[2])
    ensures TakeMult(s) == Some((100 * whole + (10 * ValueOf(tail[1]) + ValueOf(tail[2])), tail[3..]))
  {
  }

  lemma StripPrefix(prefix: string, s: string)
    ensures Strip(prefix, prefix + s) == Some(s)
  {
    assert (prefix + s)[|prefix|..] == s;
  }

  /** Every commitment can be opened: the parser recovers exactly what was printed, whatever the salt
      contains. */
  lemma ParseInvertsPreimage(gameId: nat, crash: nat, salt: string)
    ensures Parse(Preimage(gameId, crash, salt)) == Some(Opening(gameId, crash, salt))
  {
    var s4 := "-" + salt;
    var s3 := FormatMult(crash) + s4;
    var s2 := "-MULT-" + s3;
    var s1 := Decimal(gameId) + s2;
    StripPrefix("GAME-", s1);
    TakeDecimal(gameId, s2);
    StripPrefix("-MULT-", s3);
    TakeFormatted(crash, s4);
    StripPrefix("-", salt);
  }

  lemma TakeNumberPrints(s: string)
    requires TakeNumber(s).Some?
    ensures s == Decimal(TakeNumber(s).value.0) + TakeNumber(s).value.1
  {
    var k := DigitCount(s);
    CanonicalIsDecimal(s[..k]);
    assert s == s[..k] + s[k..];
  }

  lemma SplitHundreds(bp: nat, whole: nat, d: nat)
    requires d < 100 && bp == 100 * whole + d
    ensures bp / 100 == whole && bp % 100 == d
  {
  }

  lemma CentsAsRead(bp: nat, c1: char, c0: char)
    requires IsDigit(c1) && IsDigit(c0)
    requires bp % 100 == 10 * ValueOf(c1) + ValueOf(c0)
    ensures Cents(bp) == [c1, c0]
  {
    assert Digit(ValueOf(c1)) == c1 && Digit(ValueOf(c0)) == c0;
  }

  lemma FormatAsRead(bp: nat, whole: nat, c1: char, c0: char)
    requires IsDigit(c1) && IsDigit(c0) && bp == 100 * whole + (10 * ValueOf(c1) + ValueOf(c0))
    ensures FormatMult(bp) == Decimal(whole) + ("." + [c1, c0])
  {
    SplitHundreds(bp, whole, 10 * ValueOf(c1) + ValueOf(c0));
    CentsAsRead(bp, c1, c0);
    FormatMultParts(bp, whole, [c1, c0]);
  }

  lemma FormatMultParts(bp: nat, whole: nat, cents: string)
    requires bp / 100 == whole && Cents(bp) == cents
    ensures FormatMult(bp) == Decimal(whole) + ("." + cents)
  {
    FormatMultShape(bp);
  }

  lemma SplitAtCents(rest: string)
    requires |rest| >= 3 && rest[0] == '.'
    ensures rest == ("." + [rest[1], rest[2]]) + rest[3..]
  {
  }

  lemma Assoc(a: string, b: string, c: string)
    ensures a + (b + c) == (a + b) + c
  {
  }

  lemma TakeMultPrints(s: string)
    requires TakeMult(s).Some?
    ensures s == FormatMult(TakeMult(s).value.0) + TakeMult(s).value.1
  {
    var number := TakeNumber(s);
    TakeNumberPrints(s);
    var whole, rest := number.value.0, number.value.1;
    FormatAsRead(TakeMult(s).value.0, whole, rest[1], rest[2]);
    SplitAtCents(rest);
    Assoc(Decimal(whole), "." + [rest[1], rest[2]], rest[3..]);
  }

  lemma StripPrints(prefix: string, s: string)
    requires Strip(prefix, s).Some?
    ensures s == prefix + Strip(prefix, s).value
  {
  }

  /** Conversely the parser accepts nothing but commitments. */
  lemma PreimageInvertsParse(s: string)
    requires Parse(s).Some?
    ensures var o := Parse(s).value; Preimage(o.gameId, o.crash, o.salt) == s
  {
    var s1 := Strip("GAME-", s).value;
    StripPrints("GAME-", s);
    TakeNumberPrints(s1);
    var s2 := TakeNumber(s1).value.1;
    StripPrints("-MULT-", s2);
    var s3 := Strip("-MULT-", s2).value;
    TakeMultPrints(s3);
    var s4 := TakeMult(s3).value.1;
    StripPrints("-", s4);
    var o := Parse(s).value;
  }

  /** The hash of a commitment is the hash of its printed preimage: of the one string that parses to it. */
  lemma CommitHashesPreimage(sha: string -> string, gameId: nat, crash: nat, salt: string, s: string)
    requires Parse(s) == Some(Opening(gameId, crash, salt))
    ensures Commit(sha, gameId, crash, salt) == (s, sha(s))
  {
    PreimageInvertsParse(s);
  }

  /** So whoever hashes the printed preimage has verified the round. */
  lemma VerifyIff(sha: string -> string, gameId: nat, crash: nat, salt: string, commitHash: string)
    ensures var s := Commit(sha, gameId, crash, salt).0;
            && Parse(s) == Some(Opening(gameId, crash, salt))
            && (Verify(sha, gameId, crash, salt, commitHash) <==> sha(s) == commitHash)
  {
    ParseInvertsPreimage(gameId, crash, salt);
    CommitHashesPreimage(sha, gameId, crash, salt, Preimage(gameId, crash, salt));
  }

  /** One of them in full. */
  lemma PrintedExample(salt: string)
    ensures Preimage(42, 1205, salt) == "GAME-42-MULT-12.05-" + salt
  {
    assert Decimal(42) == Decimal(4) + [Digit(2)] == "42";
    assert Decimal(12) == Decimal(1) + [Digit(2)] == "12";
    assert FormatMult(1205) == "12.05";
    assert "GAME-" + ("42" + ("-MULT-" + ("12.05" + ("-" + salt)))) == "GAME-42-MULT-12.05-" + salt;
  }

  ghost predicate CollisionFree(sha: string -> string) {
    forall x: string, y: string :: sha(x) == sha(y) ==> x == y
  }

  /** A published hash verifies the committed round, and under a collision-free hash nothing else. */
  lemma VerifyExactly(sha: string -> string, gameId: nat, crash: nat, salt: string,
                      gameId': nat, crash': nat, salt': string)
    ensures Verify(sha, gameId, crash, salt, Commit(sha, gameId, crash, salt).1)
    ensures CollisionFree(sha) ==>
              (Verify(sha, gameId', crash', salt', Commit(sha, gameId, crash, salt).1)
               <==> gameId' == gameId && crash' == crash && salt' == salt)
  {
    ParseInvertsPreimage(gameId, crash, salt);
    ParseInvertsPreimage(gameId', crash', salt');
  }

  /** A minus sign and the digits of the absolute value. */
  lemma SignedNegative(i: int)
    requires i < 0
    ensures var s := Signed(i); s[0] == '-' && Canonical(s[1..]) && Value(s[1..]) == -i
  {
    DecimalIsCanonical(-i);
    assert Signed(i)[1..] == Decimal(-i);
  }

  /** How negative multipliers print: quotient and remainder are both cut off toward zero, and each has its sign. */
  lemma NegativeExamples()
    ensures FormatMult(-250) == "-2.-50" && FormatMult(-205) == "-2.-5" && FormatMult(-5) == "0.-5"
  {
    assert Decimal(50) == Decimal(5) + [Digit(0)] == "50";
    assert Quot(-250, 100) == -2 && Rem(-250, 100) == -50;
    assert Quot(-205, 100) == -2 && Rem(-205, 100) == -5;
    assert Quot(-5, 100) == 0 && Rem(-5, 100) == -5;
  }

  /** A negative multiplier, such as a narrowed column may hold, prints unlike any other. */
  lemma NegativePrintsApart(n: int, c: nat, rest: string, rest': string)
    requires n < 0
    ensures FormatMult(n) + rest != FormatMult(c) + rest'
  {
    var s, s' := FormatMult(n) + rest, FormatMult(c) + rest';
    FormatMultShape(c);
    DecimalIsCanonical(c / 100);
    if n <= -100 {
      assert Quot(n, 100) < 0;
      assert s[0] == '-';
      assert IsDigit(Decimal(c / 100)[0]) && s'[0] == Decimal(c / 100)[0];
    } else {
      assert Quot(n, 100) == 0 && Rem(n, 100) == n;
      assert Signed(0) == "0" && Padded(n)[0] == '-';
      assert s[0] == '0' && s[2] == '-';
      if c >= 100 {
        assert s'[0] == Decimal(c / 100)[0] && s'[0] != '0';
      } else {
        assert Decimal(0) == "0" && s'[2] == Cents(c)[0] && IsDigit(Cents(c)[0]);
      }
    }
  }

  /** With the round and the salt fixed, a different multiplier makes a different preimage. */
  lemma MultiplierDecidesPreimage(gameId: nat, n: int, c: nat, salt: string)
    ensures Preimage(gameId, n, salt) == Preimage(gameId, c, salt) <==> n == c
  {
    if n >= 0 {
      ParseInvertsPreimage(gameId, n, salt);
      ParseInvertsPreimage(gameId, c, salt);
    } else {
      var head, rest := "GAME-" + (Decimal(gameId) + "-MULT-"), "-" + salt;
      NegativePrintsApart(n, c, rest, rest);
      SplitPreimage(gameId, n, salt);
      SplitPreimage(gameId, c, salt);
      SameTail(head, FormatMult(n) + rest, FormatMult(c) + rest);
    }
  }

  lemma SplitPreimage(gameId: nat, crash: int, salt: string)
    ensures Preimage(gameId, crash, salt)
            == ("GAME-" + (Decimal(gameId) + "-MULT-")) + (FormatMult(crash) + ("-" + salt))
  {
    var tail := FormatMult(crash) + ("-" + salt);
    Assoc(Decimal(gameId), "-MULT-", tail);
    Assoc("GAME-", Decimal(gameId) + "-MULT-", tail);
  }

  lemma SameTail(head: string, a: string, b: string)
    ensures head + a == head + b ==> a == b
  {
    assert (head + a)[|head|..] == a && (head + b)[|head|..] == b;
  }
}
