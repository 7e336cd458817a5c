/** Generation of a synthetic login history: one record per iteration of a
    loop, pushed in order, then sorted newest first.
 */
module LoginHistory {
  import opened Draws
  import opened Security

  /** The draws one iteration of the loop makes, in the order the source makes
      them. Fingerprint, IP and the id's random suffix are opaque strings. The
      fresh fingerprint, OS, browser, IP and country are only read when the
      attempt does not reuse the base attributes. */
  datatype AttemptDraws = AttemptDraws(
    daysAgo: Draw,
    hoursAgo: Draw,
    consistency: Draw,
    success: Draw,
    loginType: Draw,
    twoFactor: Draw,
    idSuffix: string,
    fingerprint: string,
    os: Draw,
    browser: Draw,
    ip: string,
    country: Draw)

  /** The base attributes drawn once, before the loop. */
  datatype BaseDraws = BaseDraws(fingerprint: string, ip: string, os: Draw, browser: Draw)

  /** The country every consistent attempt carries. */
  const BaseCountry: string := "Brasil"

  /** How far back an attempt may lie: at most 29 days and 23 hours. */
  const MaxAge: int := 29 * MillisPerDay + 23 * MillisPerHour

  /** The second factors a login type may get: a password login always has
      one (OTP or email); a passwordless or social login never uses email. */
  predicate SecondFactorAllowed(loginType: LoginType, twoFactor: TwoFactorType)
  {
    if loginType == Password then twoFactor != NoSecondFactor else twoFactor != Email
  }

  /** The second factor chosen for one attempt. */
  function SecondFactor(loginType: LoginType, r: Draw): (t: TwoFactorType)
    ensures SecondFactorAllowed(loginType, t)
  {
    if loginType == Password then
      (if r > 0.5 then Otp else Email)
    else if r > 0.6 then Otp
    else NoSecondFactor
  }

  /** Every allowed second factor is chosen by some draw, so the rule above is
      exactly the set of reachable outcomes. */
  lemma SecondFactorReachesAllAllowed(loginType: LoginType, t: TwoFactorType)
    requires SecondFactorAllowed(loginType, t)
    ensures exists r: Draw :: SecondFactor(loginType, r) == t
  {
    var high: Draw := 0.9;
    var low: Draw := 0.1;
    if t == Otp {
      assert SecondFactor(loginType, high) == t;
    } else {
      assert SecondFactor(loginType, low) == t;
    }
  }

  /** Whether an attempt reuses the base attributes: only when the history is
      asked to be consistent and the attempt's own draw exceeds 0.3. */
  predicate KeepsBase(consistentData: bool, d: AttemptDraws)
  {
    consistentData && d.consistency > 0.3
  }

  predicate IsDigit(c: char)
  {
    '0' <= c <= '9'
  }

  /** The number a string of decimal digits denotes, most significant digit first. */
  function DigitsValue(s: string): nat
  {
    if |s| == 0 then 0
    else DigitsValue(s[..|s| - 1]) * 10 + (if IsDigit(s[|s| - 1]) then s[|s| - 1] as int - '0' as int else 0)
  }

  /** The decimal digits of a loop index, as a template literal writes it:
      digits only, and they denote the index itself. */
  function Decimal(n: nat): (s: string)
    ensures |s| > 0
    ensures forall k :: 0 <= k < |s| ==> IsDigit(s[k])
    ensures DigitsValue(s) == n
  {
    var digit := ['0' + (n % 10) as char];
    if n < 10 then digit
    else
      var prefix := Decimal(n / 10);
      assert (prefix + digit)[..|prefix|] == prefix;
      prefix + digit
  }

  /** The id of the record pushed in iteration `i`. */
  function AttemptId(i: nat, suffix: string): string
  {
    "login_" + Decimal(i) + "_" + suffix
  }

  /** Ids of different iterations differ, whatever their random suffixes: the
      digits between `login_` and the next `_` spell the iteration. */
  lemma {:induction false} AttemptIdsDiffer(i: nat, j: nat, si: string, sj: string)
    requires i != j
    ensures AttemptId(i, si) != AttemptId(j, sj)
  {
    var a, b := Decimal(i), Decimal(j);
    var x, y := AttemptId(i, si), AttemptId(j, sj);
    assert x == "login_" + a + "_" + si;
    assert y == "login_" + b + "_" + sj;
    if |a| < |b| {
      assert x[6 + |a|] == '_' && y[6 + |a|] == b[|a|];
    } else if |b| < |a| {
      assert y[6 + |b|] == '_' && x[6 + |b|] == a[|b|];
    } else {
      assert a != b;
      var k :| 0 <= k < |a| && a[k] != b[k];
      assert x[6 + k] == a[k] && y[6 + k] == b[k];
    }
  }

  /** The attempt's time: `now` moved back by a whole number of days in 0..29
      and of hours in 0..23. */
  function AttemptDate(now: int, d: AttemptDraws): (t: int)
    ensures now - MaxAge <= t <= now
  {
    var daysAgo := Scaled(d.daysAgo, 30);
    var hoursAgo := Scaled(d.hoursAgo, 24);
    assert 0 <= daysAgo * MillisPerDay <= 29 * MillisPerDay;
    assert 0 <= hoursAgo * MillisPerHour <= 23 * MillisPerHour;
    now - daysAgo * MillisPerDay - hoursAgo * MillisPerHour
  }

  /** The record pushed in iteration `i`. */
  function AttemptAt(i: nat, consistentData: bool, base: BaseDraws, d: AttemptDraws, now: int): (a: LoginAttempt)
    ensures now - MaxAge <= a.dateTime <= now
    ensures SecondFactorAllowed(a.loginType, a.twoFactorType)
    ensures a.os in OperatingSystems && a.browser in Browsers && a.country in Countries
    ensures KeepsBase(consistentData, d) ==>
              a.fingerprint == base.fingerprint && a.ip == base.ip && a.country == BaseCountry
              && a.os == RandomElement(OperatingSystems, base.os)
              && a.browser == RandomElement(Browsers, base.browser)
    ensures !KeepsBase(consistentData, d) ==> a.fingerprint == d.fingerprint && a.ip == d.ip
  {
    var useConsistentData := KeepsBase(consistentData, d);
    var loginType := RandomElement(LoginTypes, d.loginType);
    LoginAttempt(
      id := AttemptId(i, d.idSuffix),
      dateTime := AttemptDate(now, d),
      loginType := loginType,
      twoFactorType := SecondFactor(loginType, d.twoFactor),
      fingerprint := if useConsistentData then base.fingerprint else d.fingerprint,
      os := if useConsistentData then RandomElement(OperatingSystems, base.os) else RandomElement(OperatingSystems, d.os),
      browser := if useConsistentData then RandomElement(Browsers, base.browser) else RandomElement(Browsers, d.browser),
      ip := if useConsistentData then base.ip else d.ip,
      country := if useConsistentData then BaseCountry else RandomElement(Countries, d.country),
      success := d.success > 0.15)
  }

  /** The records the loop has pushed after `count` iterations, in push order:
      record `i` is the one built in iteration `i`. */
  function Pushed(count: nat, consistentData: bool, base: BaseDraws, draws: seq<AttemptDraws>, now: int): (s: seq<LoginAttempt>)
    requires count <= |draws|
    ensures |s| == count
    ensures forall i :: 0 <= i < count ==> s[i] == AttemptAt(i, consistentData, base, draws[i], now)
  {
    seq(count, i requires 0 <= i < count => AttemptAt(i, consistentData, base, draws[i], now))
  }

  /** No two attempts of `s` share an id. */
  predicate DistinctAttemptIds(s: seq<LoginAttempt>)
  {
    forall i, j :: 0 <= i < j < |s| ==> s[i].id != s[j].id
  }

  /** The pushed records carry pairwise different ids. */
  lemma PushedIdsDistinct(count: nat, consistentData: bool, base: BaseDraws, draws: seq<AttemptDraws>, now: int)
    requires count <= |draws|
    ensures DistinctAttemptIds(Pushed(count, consistentData, base, draws, now))
  {
    var s := Pushed(count, consistentData, base, draws, now);
    forall i, j | 0 <= i < j < count
      ensures s[i].id != s[j].id
    {
      AttemptIdsDiffer(i, j, draws[i].idSuffix, draws[j].idSuffix);
    }
  }

  /** What holds of every generated attempt, whatever the draws. */
  predicate WellFormedAttempt(a: LoginAttempt, now: int)
  {
    now - MaxAge <= a.dateTime <= now
    && SecondFactorAllowed(a.loginType, a.twoFactorType)
    && a.os in OperatingSystems && a.browser in Browsers && a.country in Countries
  }

  /** Two attempts that both reused the base attributes show the same
      fingerprint, OS, browser, IP and country. */
  lemma ConsistentAttemptsAgree(count: nat, consistentData: bool, base: BaseDraws, draws: seq<AttemptDraws>, now: int, i: nat, j: nat)
    requires count <= |draws| && i < count && j < count
    requires KeepsBase(consistentData, draws[i]) && KeepsBase(consistentData, draws[j])
    ensures var s := Pushed(count, consistentData, base, draws, now);
            s[i].fingerprint == s[j].fingerprint && s[i].os == s[j].os && s[i].browser == s[j].browser
            && s[i].ip == s[j].ip && s[i].country == s[j].country == BaseCountry
  {
  }

  /** With distinct ids, no attempt occurs twice. */
  lemma {:induction false} DistinctIdsOccurOnce(s: seq<LoginAttempt>, x: LoginAttempt)
    requires DistinctAttemptIds(s)
    ensures multiset(s)[x] <= 1
  {
    if |s| > 0 {
      var init := s[..|s| - 1];
      assert s == init + [s[|s| - 1]];
      DistinctIdsOccurOnce(init, x);
      if s[|s| - 1] == x {
        assert x !in init;
      }
    }
  }

  /** Reordering keeps ids distinct. */
  lemma {:induction false} PermutationKeepsDistinctIds(a: seq<LoginAttempt>, b: seq<LoginAttempt>)
    requires multiset(a) == multiset(b)
    requires DistinctAttemptIds(b)
    ensures DistinctAttemptIds(a)
  {
    forall i, j | 0 <= i < j < |a|
      ensures a[i].id != a[j].id
    {
      if a[i] == a[j] {
        assert a == a[..j] + [a[j]] + a[j + 1..];
        assert a[i] in a[..j];
        DistinctIdsOccurOnce(b, a[j]);
        assert false;
      } else {
        assert a[i] in multiset(b) && a[j] in multiset(b);
        var p :| 0 <= p < |b| && b[p] == a[i];
        var q :| 0 <= q < |b| && b[q] == a[j];
      }
    }
  }

  /** Newest first: timestamps never increase along the sequence. */
  predicate NewestFirst(s: seq<LoginAttempt>)
  {
    forall i, j :: 0 <= i < j < |s| ==> s[i].dateTime >= s[j].dateTime
  }

  /** The in-place sort with comparator `b.dateTime - a.dateTime`, as an
      insertion sort that moves each element left past strictly older ones. */
  method SortNewestFirst(a: array<LoginAttempt>)
    modifies a
    ensures NewestFirst(a[..])
    ensures multiset(a[..]) == multiset(old(a[..]))
  {
    var i := 0;
    while i < a.Length
      invariant 0 <= i <= a.Length
      invariant NewestFirst(a[..i])
      invariant multiset(a[..]) == multiset(old(a[..]))
    {
      InsertNewest(a, i);
      i := i + 1;
    }
    assert a[..a.Length] == a[..];
  }

  /** Exchanges two elements of `a`. */
  method Swap(a: array<LoginAttempt>, i: nat, j: nat)
    requires i < j < a.Length
    modifies a
    ensures a[i] == old(a[j]) && a[j] == old(a[i])
    ensures forall k :: 0 <= k < a.Length && k != i && k != j ==> a[k] == old(a[k])
    ensures multiset(a[..]) == multiset(old(a[..]))
  {
    a[i], a[j] := a[j], a[i];
  }

  /** One insertion step: `a[..i]` is newest first; afterwards `a[..i + 1]` is,
      and nothing at or after `i + 1` moved. */
  method InsertNewest(a: array<LoginAttempt>, i: nat)
    requires i < a.Length
    requires NewestFirst(a[..i])
    modifies a
    ensures NewestFirst(a[..i + 1])
    ensures multiset(a[..]) == multiset(old(a[..]))
    ensures a[i + 1..] == old(a[i + 1..])
  {
    var j := i;
    while j > 0 && a[j - 1].dateTime < a[j].dateTime
      invariant 0 <= j <= i
      invariant a[i + 1..] == old(a[i + 1..])
      invariant forall k, l :: 0 <= k < l <= i && l != j && k != j ==> a[k].dateTime >= a[l].dateTime
      invariant forall l :: j < l <= i ==> a[j].dateTime > a[l].dateTime
      invariant 0 < j < i ==> a[j - 1].dateTime >= a[j + 1].dateTime
      invariant multiset(a[..]) == multiset(old(a[..]))
    {
      Swap(a, j - 1, j);
      j := j - 1;
    }
  }

  /** `generateLoginHistory(count, consistentData)`: pushes one record per
      iteration, then sorts them newest first. */
  method GenerateLoginHistory(count: nat, consistentData: bool, base: BaseDraws, draws: seq<AttemptDraws>, now: int)
    returns (logins: seq<LoginAttempt>)
    requires count <= |draws|
    ensures |logins| == count
    ensures multiset(logins) == multiset(Pushed(count, consistentData, base, draws, now))
    ensures NewestFirst(logins)
    ensures forall a :: a in logins ==> WellFormedAttempt(a, now)
    ensures DistinctAttemptIds(logins)
  {
    var pushed: seq<LoginAttempt> := [];
    for i := 0 to count
      invariant |pushed| == i
      invariant forall k :: 0 <= k < i ==> pushed[k] == AttemptAt(k, consistentData, base, draws[k], now)
    {
      pushed := pushed + [AttemptAt(i, consistentData, base, draws[i], now)];
    }
    assert pushed == Pushed(count, consistentData, base, draws, now);
    var arr := new LoginAttempt[count](k requires 0 <= k < count => pushed[k]);
    assert arr[..] == pushed;
    SortNewestFirst(arr);
    logins := arr[..];
    forall a | a in logins
      ensures WellFormedAttempt(a, now)
    {
      assert a in multiset(pushed);
    }
    PushedIdsDistinct(count, consistentData, base, draws, now);
    PermutationKeepsDistinctIds(logins, pushed);
  }
}
