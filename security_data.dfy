/** Assembly of one user's security data: a drawn score and its level, the
    account flags derived from it, a login history, and the fixed table of
    nine weighted factors.
 */
module SecurityData {
  import opened Draws
  import opened Security
  import opened LoginHistory

  /** Every draw one assembly makes, named after what it decides. */
  datatype SecurityDraws = SecurityDraws(
    score: Draw,
    newUser: Draw,
    otp: Draw,
    passwordChange: Draw,
    failedAttempts: Draw,
    passwordAge: Draw,
    historyLength: Draw,
    historyBase: BaseDraws,
    history: seq<AttemptDraws>,
    sameIP: Draw,
    sameUserAgent: Draw,
    sameCountry: Draw,
    sameFingerprint: Draw,
    standardBehavior: Draw,
    manyFailedAttempts: Draw,
    differentInfrastructure: Draw)

  /** The longest history an assembly asks for. */
  const MaxHistoryLength: nat := 10

  /** The seven signals drawn after the history, each gated by a score guard. */
  datatype Signals = Signals(
    sameIP: bool,
    sameUserAgent: bool,
    sameCountry: bool,
    sameFingerprint: bool,
    standardBehavior: bool,
    manyFailedAttempts: bool,
    differentInfrastructure: bool)

  /** The nine factors of the table, one constructor each. */
  datatype FactorKind =
    | PasswordChange | SameIP | SameUserAgent | SameCountry | SameFingerprint
    | OtpEnabled | StandardBehavior | FailedAttempts | DifferentInfrastructure

  /** The order in which the table lists the factors. */
  const FactorOrder: seq<FactorKind> :=
    [PasswordChange, SameIP, SameUserAgent, SameCountry, SameFingerprint,
     OtpEnabled, StandardBehavior, FailedAttempts, DifferentInfrastructure]

  function FactorId(k: FactorKind): string
  {
    match k
    case PasswordChange => "password_change"
    case SameIP => "same_ip"
    case SameUserAgent => "same_user_agent"
    case SameCountry => "same_country"
    case SameFingerprint => "same_fingerprint"
    case OtpEnabled => "otp_enabled"
    case StandardBehavior => "standard_behavior"
    case FailedAttempts => "failed_attempts"
    case DifferentInfrastructure => "different_infrastructure"
  }

  /** The signed weight of each factor. */
  function Weight(k: FactorKind): int
  {
    match k
    case PasswordChange => 10
    case SameIP => 8
    case SameUserAgent => 8
    case SameCountry => 10
    case SameFingerprint => 12
    case OtpEnabled => 15
    case StandardBehavior => 10
    case FailedAttempts => -15
    case DifferentInfrastructure => -12
  }

  /** Where each kind stands in the table. */
  function Position(k: FactorKind): (i: nat)
    ensures i < |FactorOrder| && FactorOrder[i] == k
  {
    match k
    case PasswordChange => 0
    case SameIP => 1
    case SameUserAgent => 2
    case SameCountry => 3
    case SameFingerprint => 4
    case OtpEnabled => 5
    case StandardBehavior => 6
    case FailedAttempts => 7
    case DifferentInfrastructure => 8
  }

  /** The two alerts are negative; every other factor is positive. */
  function CategoryOf(k: FactorKind): Category
  {
    if k == FailedAttempts || k == DifferentInfrastructure then Negative else Positive
  }

  /** The factors that compare the current login with the history. */
  predicate DependsOnHistory(k: FactorKind)
  {
    k in {SameIP, SameUserAgent, SameCountry, SameFingerprint, StandardBehavior}
  }

  /** The ids of the alerts. */
  const NegativeFactorIds: set<string> := {"failed_attempts", "different_infrastructure"}

  /** The ids of the factors that never hold for a new user. */
  const HistoryFactorIds: set<string> := {"same_ip", "same_user_agent", "same_country", "same_fingerprint", "standard_behavior"}

  /** `Math.floor(Math.random() * 101)`: a score in 0..100. */
  function DrawScore(r: Draw): (score: int)
    ensures 0 <= score <= 100
  {
    Scaled(r, 101)
  }

  /** OTP is enabled with probability 0.7 above a score of 50, 0.3 otherwise:
      a draw above 0.7 always enables it, one of at most 0.3 never does, and
      in between the score decides. */
  function HasOtpEnabled(score: int, r: Draw): (enabled: bool)
    ensures r > 0.7 ==> enabled
    ensures r <= 0.3 ==> !enabled
    ensures 0.3 < r <= 0.7 ==> (enabled <==> score > 50)
  {
    if score > 50 then r > 0.3 else r > 0.7
  }

  /** A recent password change has probability 0.6 above a score of 60, 0.2
      otherwise: a draw above 0.8 always makes it recent, one of at most 0.4
      never does, and in between the score decides. */
  function HasRecentPasswordChange(score: int, r: Draw): (recent: bool)
    ensures r > 0.8 ==> recent
    ensures r <= 0.4 ==> !recent
    ensures 0.4 < r <= 0.8 ==> (recent <==> score > 60)
  {
    if score > 60 then r > 0.4 else r > 0.8
  }

  /** Failed attempts: 3..12 below a score of 50, 0..2 otherwise. */
  function FailedLoginAttempts(score: int, r: Draw): (n: int)
    ensures score < 50 ==> 3 <= n <= 12
    ensures score >= 50 ==> 0 <= n <= 2
  {
    if score < 50 then Scaled(r, 10) + 3 else Scaled(r, 3)
  }

  /** The time of the last password change: within the last 90 days exactly
      when the change counts as recent, otherwise 90 to 454 days back. */
  function LastPasswordChange(recent: bool, r: Draw, now: int): (t: int)
    ensures t <= now
    ensures recent <==> t > now - 90 * MillisPerDay
    ensures !recent ==> t > now - (365 + 90) * MillisPerDay
  {
    if recent then now - Scaled(r, 90 * MillisPerDay)
    else now - Scaled(r, 365 * MillisPerDay) - 90 * MillisPerDay
  }

  /** `Math.floor(Math.random() * 6) + 5`: a history of 5..10 logins. */
  function HistoryLength(r: Draw): (n: nat)
    ensures 5 <= n <= MaxHistoryLength
  {
    Scaled(r, 6) + 5
  }

  /** The seven signals for a score. Each holds only above (for an alert,
      below) its score guard, so a user cannot show the matching fingerprint
      or the standard behaviour together with the many-failed-attempts alert,
      nor a matching user agent together with the infrastructure alert. */
  function DrawSignals(score: int, d: SecurityDraws): (s: Signals)
    ensures s.sameIP ==> score > 40
    ensures s.sameUserAgent ==> score > 45
    ensures s.sameCountry ==> score > 35
    ensures s.sameFingerprint ==> score > 50
    ensures s.standardBehavior ==> score > 55
    ensures s.manyFailedAttempts ==> score < 50
    ensures s.differentInfrastructure ==> score < 45
    ensures !(s.manyFailedAttempts && (s.sameFingerprint || s.standardBehavior))
    ensures !(s.differentInfrastructure && (s.sameUserAgent || s.sameFingerprint || s.standardBehavior))
  {
    Signals(
      sameIP := score > 40 && d.sameIP > 0.3,
      sameUserAgent := score > 45 && d.sameUserAgent > 0.35,
      sameCountry := score > 35 && d.sameCountry > 0.25,
      sameFingerprint := score > 50 && d.sameFingerprint > 0.4,
      standardBehavior := score > 55 && d.standardBehavior > 0.35,
      manyFailedAttempts := score < 50 && d.manyFailedAttempts > 0.4,
      differentInfrastructure := score < 45 && d.differentInfrastructure > 0.5)
  }

  /** For the same draws, a higher score never switches a positive signal off,
      never switches an alert on, and never raises the failed-attempt count. */
  lemma SignalsMonotoneInScore(d: SecurityDraws, lo: int, hi: int)
    requires lo <= hi
    ensures HasOtpEnabled(lo, d.otp) ==> HasOtpEnabled(hi, d.otp)
    ensures HasRecentPasswordChange(lo, d.passwordChange) ==> HasRecentPasswordChange(hi, d.passwordChange)
    ensures FailedLoginAttempts(hi, d.failedAttempts) <= FailedLoginAttempts(lo, d.failedAttempts)
    ensures var l, h := DrawSignals(lo, d), DrawSignals(hi, d);
            (l.sameIP ==> h.sameIP) && (l.sameUserAgent ==> h.sameUserAgent)
            && (l.sameCountry ==> h.sameCountry) && (l.sameFingerprint ==> h.sameFingerprint)
            && (l.standardBehavior ==> h.standardBehavior)
            && (h.manyFailedAttempts ==> l.manyFailedAttempts)
            && (h.differentInfrastructure ==> l.differentInfrastructure)
  {
  }

  /** Whether some factor with this id is active. */
  predicate Active(factors: seq<SecurityFactor>, id: string)
  {
    exists i :: 0 <= i < |factors| && factors[i].id == id && factors[i].isActive
  }

  /** Ids are distinct across the table. */
  predicate DistinctIds(factors: seq<SecurityFactor>)
  {
    forall i, j :: 0 <= i < j < |factors| ==> factors[i].id != factors[j].id
  }

  /** In a table with distinct ids, a factor is active under its id exactly
      when its own flag is set. */
  lemma ActiveAt(factors: seq<SecurityFactor>, i: nat)
    requires DistinctIds(factors) && i < |factors|
    ensures Active(factors, factors[i].id) == factors[i].isActive
  {
  }

  /** What the table reads besides the kind of each factor. */
  datatype FactorInputs = FactorInputs(
    hasRecentPasswordChange: bool,
    lastPasswordChange: int,
    isNewUser: bool,
    hasOtpEnabled: bool,
    failedLoginAttempts: int,
    signals: Signals)

  function FactorName(k: FactorKind): string
  {
    match k
    case PasswordChange => "Troca de Senha Recente"
    case SameIP => "Endereço IP Reconhecido"
    case SameUserAgent => "User Agent Reconhecido"
    case SameCountry => "Geolocalização Reconhecida"
    case SameFingerprint => "Fingerprint Reconhecido"
    case OtpEnabled => "2FA via OTP Habilitado"
    case StandardBehavior => "Comportamento Padrão"
    case FailedAttempts => "Tentativas de Login Falhas"
    case DifferentInfrastructure => "Infraestrutura Variável"
  }

  function FactorDescription(k: FactorKind): string
  {
    match k
    case PasswordChange => "Senha alterada nos últimos 3 meses"
    case SameIP => "Utilizando mesmo IP de sessões anteriores"
    case SameUserAgent => "Mesmo navegador e SO de sessões anteriores"
    case SameCountry => "Login do mesmo país de sessões anteriores"
    case SameFingerprint => "Dispositivo identificado em sessões anteriores"
    case OtpEnabled => "Autenticação de dois fatores via aplicativo"
    case StandardBehavior => "Horário e frequência de login consistentes"
    case FailedAttempts => "Múltiplas tentativas sem sucesso detectadas"
    case DifferentInfrastructure => "Logins de múltiplos dispositivos/locais"
  }

  /** The flag each factor reports, before any gating. */
  function RawSignal(k: FactorKind, inp: FactorInputs): bool
  {
    match k
    case PasswordChange => inp.hasRecentPasswordChange
    case SameIP => inp.signals.sameIP
    case SameUserAgent => inp.signals.sameUserAgent
    case SameCountry => inp.signals.sameCountry
    case SameFingerprint => inp.signals.sameFingerprint
    case OtpEnabled => inp.hasOtpEnabled
    case StandardBehavior => inp.signals.standardBehavior
    case FailedAttempts => inp.signals.manyFailedAttempts
    case DifferentInfrastructure => inp.signals.differentInfrastructure
  }

  /** A factor is active when its signal is set and, for the history-dependent
      ones, the user is not new. */
  function IsActiveFor(k: FactorKind, inp: FactorInputs): bool
  {
    (DependsOnHistory(k) ==> !inp.isNewUser) && RawSignal(k, inp)
  }

  /** The explanatory text, chosen by the ungated signal. */
  function DetailsFor(k: FactorKind, inp: FactorInputs): Details
  {
    var on := RawSignal(k, inp);
    match k
    case PasswordChange =>
      if on then LastChangeOn(inp.lastPasswordChange) else Text("Senha não alterada há mais de 3 meses")
    case SameIP =>
      Text(if on then "IP corresponde ao histórico de logins" else "IP não reconhecido no histórico")
    case SameUserAgent =>
      Text(if on then "Dispositivo corresponde ao histórico" else "Dispositivo não reconhecido")
    case SameCountry =>
      Text(if on then "Localização consistente com histórico" else "País diferente do habitual")
    case SameFingerprint =>
      Text(if on then "Fingerprint corresponde ao histórico" else "Fingerprint não reconhecido")
    case OtpEnabled =>
      Text(if on then "Proteção adicional ativa" else "Considere habilitar OTP para maior segurança")
    case StandardBehavior =>
      Text(if on then "Padrão de acesso consistente" else "Comportamento fora do padrão habitual")
    case FailedAttempts =>
      if on then FailedCount(inp.failedLoginAttempts) else Text("Nenhuma tentativa suspeita")
    case DifferentInfrastructure =>
      Text(if on then "Possível ataque de validação de lista" else "Infraestrutura consistente")
  }

  /** The factor of one kind. */
  function Factor(k: FactorKind, inp: FactorInputs): SecurityFactor
  {
    SecurityFactor(FactorId(k), FactorName(k), FactorDescription(k), CategoryOf(k),
                   IsActiveFor(k, inp), Weight(k), DetailsFor(k, inp))
  }

  /** The ids of the nine kinds are pairwise different strings. */
  lemma FactorIdsDistinct()
    ensures forall i, j :: 0 <= i < j < |FactorOrder| ==> FactorId(FactorOrder[i]) != FactorId(FactorOrder[j])
  {
  }

  /** Every kind's category agrees with the sign of its weight, no weight is
      zero, and the alerts and history-dependent kinds are the ones whose ids
      are listed as such. */
  lemma KindTable(k: FactorKind)
    ensures (CategoryOf(k) == Negative <==> Weight(k) < 0) && Weight(k) != 0
    ensures CategoryOf(k) == Negative <==> FactorId(k) in NegativeFactorIds
    ensures DependsOnHistory(k) <==> FactorId(k) in HistoryFactorIds
  {
  }

  /** The nine factors, in the order the source lists them. */
  function FactorTable(inp: FactorInputs): (fs: seq<SecurityFactor>)
    ensures |fs| == |FactorOrder| == 9
    ensures forall i :: 0 <= i < |fs| ==> fs[i].id == FactorId(FactorOrder[i]) && fs[i].weight == Weight(FactorOrder[i])
    ensures DistinctIds(fs)
    ensures forall i :: 0 <= i < |fs| ==> (fs[i].category == Negative <==> fs[i].weight < 0) && fs[i].weight != 0
    ensures forall i :: 0 <= i < |fs| ==> (fs[i].category == Negative <==> fs[i].id in NegativeFactorIds)
    ensures inp.isNewUser ==> forall i :: 0 <= i < |fs| && fs[i].id in HistoryFactorIds ==> !fs[i].isActive
  {
    var fs := seq(|FactorOrder|, i requires 0 <= i < |FactorOrder| => Factor(FactorOrder[i], inp));
    FactorIdsDistinct();
    forall i | 0 <= i < |fs|
      ensures (fs[i].category == Negative <==> fs[i].weight < 0) && fs[i].weight != 0
      ensures fs[i].category == Negative <==> fs[i].id in NegativeFactorIds
      ensures DependsOnHistory(FactorOrder[i]) <==> fs[i].id in HistoryFactorIds
    {
      KindTable(FactorOrder[i]);
    }
    fs
  }

  /** Looked up by id, each factor of the table is active exactly when its
      kind's activation rule holds. */
  lemma ActiveInTable(inp: FactorInputs, k: FactorKind)
    ensures Active(FactorTable(inp), FactorId(k)) == IsActiveFor(k, inp)
  {
    var fs := FactorTable(inp);
    ActiveAt(fs, Position(k));
  }

  /** The password-change and OTP factors report the account flags they are
      built from. */
  lemma AccountFactors(inp: FactorInputs)
    ensures Active(FactorTable(inp), FactorId(PasswordChange)) == inp.hasRecentPasswordChange
    ensures Active(FactorTable(inp), FactorId(OtpEnabled)) == inp.hasOtpEnabled
  {
    ActiveInTable(inp, PasswordChange);
    ActiveInTable(inp, OtpEnabled);
  }

  /** For a new user none of the five history-dependent factors is active. */
  lemma NewUserGate(inp: FactorInputs, k: FactorKind)
    requires inp.isNewUser && DependsOnHistory(k)
    ensures !Active(FactorTable(inp), FactorId(k))
  {
  }

  /** With signals drawn for a score, each active factor implies its score
      guard. */
  lemma ScoreGuards(score: int, d: SecurityDraws, inp: FactorInputs)
    requires inp.signals == DrawSignals(score, d)
    ensures Active(FactorTable(inp), FactorId(SameIP)) ==> score > 40
    ensures Active(FactorTable(inp), FactorId(SameUserAgent)) ==> score > 45
    ensures Active(FactorTable(inp), FactorId(SameCountry)) ==> score > 35
    ensures Active(FactorTable(inp), FactorId(SameFingerprint)) ==> score > 50
    ensures Active(FactorTable(inp), FactorId(StandardBehavior)) ==> score > 55
    ensures Active(FactorTable(inp), FactorId(FailedAttempts)) ==> score < 50
    ensures Active(FactorTable(inp), FactorId(DifferentInfrastructure)) ==> score < 45
  {
    ActiveInTable(inp, SameIP);
    ActiveInTable(inp, SameUserAgent);
    ActiveInTable(inp, SameCountry);
    ActiveInTable(inp, SameFingerprint);
    ActiveInTable(inp, StandardBehavior);
    ActiveInTable(inp, FailedAttempts);
    ActiveInTable(inp, DifferentInfrastructure);
  }

  /** `generateSecurityData()`: draws a score, derives its level and the
      account flags from it, generates a history of 5..10 logins that is asked
      to be consistent exactly when the score exceeds 50, and builds the
      factor table. */
  method GenerateSecurityData(d: SecurityDraws, now: int) returns (data: UserSecurityData)
    requires MaxHistoryLength <= |d.history|
    ensures data.score == DrawScore(d.score) && data.isNewUser == (d.newUser > 0.85)
    ensures data.hasOtpEnabled == HasOtpEnabled(data.score, d.otp)
    ensures data.hasRecentPasswordChange == HasRecentPasswordChange(data.score, d.passwordChange)
    ensures data.failedLoginAttempts == FailedLoginAttempts(data.score, d.failedAttempts)
    ensures data.lastPasswordChange == Some(LastPasswordChange(data.hasRecentPasswordChange, d.passwordAge, now))
    ensures |data.loginHistory| == HistoryLength(d.historyLength)
    ensures 0 <= data.score <= 100
    ensures data.scoreLevel == GetScoreLevel(data.score)
    ensures data.score < 50 ==> 3 <= data.failedLoginAttempts <= 12
    ensures data.score >= 50 ==> 0 <= data.failedLoginAttempts <= 2
    ensures data.lastPasswordChange.Some? && data.lastPasswordChange.value <= now
    ensures data.hasRecentPasswordChange <==> data.lastPasswordChange.value > now - 90 * MillisPerDay
    ensures 5 <= |data.loginHistory| <= MaxHistoryLength
    ensures NewestFirst(data.loginHistory)
    ensures multiset(data.loginHistory)
            == multiset(Pushed(|data.loginHistory|, data.score > 50, d.historyBase, d.history, now))
    ensures forall a :: a in data.loginHistory ==> WellFormedAttempt(a, now)
    ensures DistinctAttemptIds(data.loginHistory)
    ensures data.factors == FactorTable(FactorInputs(data.hasRecentPasswordChange, data.lastPasswordChange.value, data.isNewUser,
                                                     data.hasOtpEnabled, data.failedLoginAttempts, DrawSignals(data.score, d)))
  {
    var score := DrawScore(d.score);
    var scoreLevel := GetScoreLevel(score);
    var isNewUser := d.newUser > 0.85;
    var hasOtpEnabled := HasOtpEnabled(score, d.otp);
    var hasRecentPasswordChange := HasRecentPasswordChange(score, d.passwordChange);
    var failedLoginAttempts := FailedLoginAttempts(score, d.failedAttempts);
    var lastPasswordChange := LastPasswordChange(hasRecentPasswordChange, d.passwordAge, now);
    var loginHistory := GenerateLoginHistory(HistoryLength(d.historyLength), score > 50, d.historyBase, d.history, now);
    var inputs := FactorInputs(hasRecentPasswordChange, lastPasswordChange, isNewUser,
                               hasOtpEnabled, failedLoginAttempts, DrawSignals(score, d));
    var factors := FactorTable(inputs);
    data := UserSecurityData(score, scoreLevel, hasOtpEnabled, hasRecentPasswordChange, Some(lastPasswordChange),
                             isNewUser, failedLoginAttempts, factors, loginHistory);
  }
}
