/** The data model of the security-score generator: its records, its fixed
    lists of values, and the classification of a score into a level.
 */
module Security {

  datatype Option<T> = None | Some(value: T)

  datatype LoginType = Password | Passwordless | Social

  /** The second factor of one login; `NoSecondFactor` is the source's 'none'. */
  datatype TwoFactorType = Email | Otp | NoSecondFactor

  datatype ScoreLevel = Critical | Warning | Caution | Safe

  datatype Category = Positive | Negative

  /** One past login. `dateTime` is a timestamp in milliseconds. */
  datatype LoginAttempt = LoginAttempt(
    id: string,
    dateTime: int,
    loginType: LoginType,
    twoFactorType: TwoFactorType,
    fingerprint: string,
    os: string,
    browser: string,
    ip: string,
    country: string,
    success: bool)

  /** The explanatory text of a factor: either fixed wording, or the value the
      source formats into its text (the date of the last password change, or
      the number of failed attempts). */
  datatype Details = Text(message: string) | LastChangeOn(dateTime: int) | FailedCount(attempts: int)

  datatype SecurityFactor = SecurityFactor(
    id: string,
    name: string,
    description: string,
    category: Category,
    isActive: bool,
    weight: int,
    details: Details)

  datatype UserSecurityData = UserSecurityData(
    score: int,
    scoreLevel: ScoreLevel,
    hasOtpEnabled: bool,
    hasRecentPasswordChange: bool,
    lastPasswordChange: Option<int>,
    isNewUser: bool,
    failedLoginAttempts: int,
    factors: seq<SecurityFactor>,
    loginHistory: seq<LoginAttempt>)

  const Browsers: seq<string> := ["Chrome 120", "Firefox 121", "Safari 17", "Edge 120", "Opera 105"]
  const OperatingSystems: seq<string> := ["Windows 11", "macOS Sonoma", "Ubuntu 22.04", "iOS 17", "Android 14"]
  const Countries: seq<string> := ["Brasil", "Estados Unidos", "Portugal", "Argentina", "México", "Nigéria", "Rússia"]
  const HighRiskCountries: seq<string> := ["Nigéria", "Rússia"]
  const LoginTypes: seq<LoginType> := [Password, Passwordless, Social]

  const MillisPerHour: int := 60 * 60 * 1000
  const MillisPerDay: int := 24 * MillisPerHour

  /** The level of a score; the four ranges are half-open and cover every integer. */
  function GetScoreLevel(score: int): (level: ScoreLevel)
    ensures level == Critical <==> score < 40
    ensures level == Warning <==> 40 <= score < 70
    ensures level == Caution <==> 70 <= score < 90
    ensures level == Safe <==> 90 <= score
  {
    if score < 40 then Critical
    else if score < 70 then Warning
    else if score < 90 then Caution
    else Safe
  }

  /** The order critical < warning < caution < safe. */
  function Rank(level: ScoreLevel): nat
  {
    match level
    case Critical => 0
    case Warning => 1
    case Caution => 2
    case Safe => 3
  }

  /** A higher score never gets a lower level. */
  lemma ScoreLevelMonotone(lo: int, hi: int)
    requires lo <= hi
    ensures Rank(GetScoreLevel(lo)) <= Rank(GetScoreLevel(hi))
  {
  }
}
