/**
 * The checks of sign-up (`CustomerViewSet.create`, api/views.py:176-258)
 * and its age computation `calculate_age` (api/views.py:431-438).
 *
 * Lookups the handler makes in the user table and the outcome of the
 * external validators arrive as parameters; today's date is a parameter.
 */
module Accounts {
  import opened Basics

  datatype Date = Date(year: int, month: int, day: int)

  /** Python's tuple comparison `(m1, d1) < (m2, d2)`. */
  predicate EarlierInYear(m1: int, d1: int, m2: int, d2: int)
  {
    m1 < m2 || (m1 == m2 && d1 < d2)
  }

  /** Dates compared field by field, year first. */
  predicate OnOrAfter(a: Date, b: Date)
  {
    a.year > b.year || (a.year == b.year && !EarlierInYear(a.month, a.day, b.month, b.day))
  }

  /** `calculate_age`: the difference of the years, less one when this
      year's birthday is still to come. */
  function CalculateAge(birthdate: Date, today: Date): (age: int)
    ensures today.year - birthdate.year - 1 <= age <= today.year - birthdate.year
    ensures age == today.year - birthdate.year <==> !EarlierInYear(today.month, today.day, birthdate.month, birthdate.day)
  {
    today.year - birthdate.year
      - (if EarlierInYear(today.month, today.day, birthdate.month, birthdate.day) then 1 else 0)
  }

  /** The age is the number of birthdays reached: it is at least `n` exactly
      when the `n`-th birthday falls on or before today. */
  lemma AgeCountsBirthdays(birthdate: Date, today: Date, n: int)
    ensures CalculateAge(birthdate, today) >= n <==>
      OnOrAfter(today, Date(birthdate.year + n, birthdate.month, birthdate.day))
  {
  }

  /** The age does not decrease as days go by. */
  lemma AgeMonotone(birthdate: Date, d1: Date, d2: Date)
    requires OnOrAfter(d2, d1)
    ensures CalculateAge(birthdate, d1) <= CalculateAge(birthdate, d2)
  {
    var n := CalculateAge(birthdate, d1);
    AgeCountsBirthdays(birthdate, d1, n);
    AgeCountsBirthdays(birthdate, d2, n);
  }

  const DAILY_ACCOUNT_LIMIT := 50
  const MIN_USERNAME_LENGTH := 8
  const MAX_USERNAME_LENGTH := 16
  const MIN_AGE := 18

  datatype SignUpReply =
    | DailyAccountLimit
    | UsernameTooShort
    | UsernameTooLong
    | UsernameInappropriate
    | UsernameTaken
    | EmailInvalid
    | EmailTaken
    | PasswordInvalid
    | SomethingWentWrong
    | TooYoung
    | AccountCreated

  /** What sign-up answers. `joinedCount` is what the daily-limit query
      returns (see `JoinedOn` and `JoinedAtMidnight` below). The
      user-table lookups and the verdicts of the profanity filter and of
      Django's e-mail and password validators come in as booleans;
      `birthdate` is `None` when it is not a `%Y-%m-%d` date, where
      `strptime` raises. Each reply is given exactly when every earlier
      check passed and its own check fails. */
  function SignUp(
    joinedCount: nat,
    username: string,
    usernameProfane: bool,
    usernameTaken: bool,
    emailValid: bool,
    emailTaken: bool,
    passwordValid: bool,
    birthdate: Option<Date>,
    today: Date): (r: SignUpReply)
    ensures r == DailyAccountLimit <==> joinedCount >= DAILY_ACCOUNT_LIMIT
    ensures var underLimit := joinedCount < DAILY_ACCOUNT_LIMIT;
      var lengthOk := underLimit && MIN_USERNAME_LENGTH <= |username| <= MAX_USERNAME_LENGTH;
      var nameOk := lengthOk && !usernameProfane && !usernameTaken;
      var emailOk := nameOk && emailValid && !emailTaken;
      var passwordOk := emailOk && passwordValid;
      && (r == UsernameTooShort <==> underLimit && |username| < MIN_USERNAME_LENGTH)
      && (r == UsernameTooLong <==> underLimit && |username| > MAX_USERNAME_LENGTH)
      && (r == UsernameInappropriate <==> lengthOk && usernameProfane)
      && (r == UsernameTaken <==> lengthOk && !usernameProfane && usernameTaken)
      && (r == EmailInvalid <==> nameOk && !emailValid)
      && (r == EmailTaken <==> nameOk && emailValid && emailTaken)
      && (r == PasswordInvalid <==> emailOk && !passwordValid)
      && (r == SomethingWentWrong <==> passwordOk && birthdate.None?)
      && (r == TooYoung <==> passwordOk && birthdate.Some? && CalculateAge(birthdate.value, today) < MIN_AGE)
      && (r == AccountCreated <==> passwordOk && birthdate.Some? && CalculateAge(birthdate.value, today) >= MIN_AGE)
  {
    if joinedCount >= DAILY_ACCOUNT_LIMIT then DailyAccountLimit
    else if |username| < MIN_USERNAME_LENGTH then UsernameTooShort
    else if |username| > MAX_USERNAME_LENGTH then UsernameTooLong
    else if usernameProfane then UsernameInappropriate
    else if usernameTaken then UsernameTaken
    else if !emailValid then EmailInvalid
    else if emailTaken then EmailTaken
    else if !passwordValid then PasswordInvalid
    else if birthdate.None? then SomethingWentWrong
    else if CalculateAge(birthdate.value, today) < MIN_AGE then TooYoung
    else AccountCreated
  }

  // The daily account limit. `User.date_joined` is a date and time; the
  // query `filter(date_joined=date.today())` turns today's date into
  // today at midnight and compares for equality.

  /** When a user joined: the date and the second of that day. The column
      keeps microseconds; second 0 here stands for the instant 00:00:00.000000,
      and later instants within that second are not told apart from it. */
  datatype Joined = Joined(date: Date, second: nat)

  /** The number of users that joined on `day`, at any time of it. */
  function JoinedOn(joined: seq<Joined>, day: Date): (n: nat)
    ensures n <= |joined|
  {
    if joined == [] then 0
    else JoinedOn(joined[..|joined| - 1], day) + (if joined[|joined| - 1].date == day then 1 else 0)
  }

  /** The number of users whose join instant equals `day` at midnight: what
      the query as written counts, never more than joined that day. */
  function JoinedAtMidnight(joined: seq<Joined>, day: Date): (n: nat)
    ensures n <= JoinedOn(joined, day)
  {
    if joined == [] then 0
    else
      var last := joined[|joined| - 1];
      JoinedAtMidnight(joined[..|joined| - 1], day) + (if last.date == day && last.second == 0 then 1 else 0)
  }

  /** Users that joined today after midnight are not counted by the query as
      written, but are by the day's count. */
  lemma {:induction false} AfterMidnightUncounted(joined: seq<Joined>, day: Date)
    requires forall i :: 0 <= i < |joined| ==> joined[i].date == day && joined[i].second > 0
    ensures JoinedAtMidnight(joined, day) == 0
    ensures JoinedOn(joined, day) == |joined|
  {
    if joined != [] {
      AfterMidnightUncounted(joined[..|joined| - 1], day);
    }
  }

  /** As written: with 50 users that joined today at noon, the query counts
      none of them, and a 51st account is created. */
  lemma MidnightCountMissesTheDay()
    ensures var today := Date(2024, 6, 1);
      var joined := seq(50, i => Joined(today, 43200));
      && JoinedOn(joined, today) == DAILY_ACCOUNT_LIMIT
      && SignUp(JoinedAtMidnight(joined, today), "customer1", false, false, true, false, true,
                Some(Date(1990, 1, 1)), today) == AccountCreated
  {
    var today := Date(2024, 6, 1);
    var joined := seq(50, i => Joined(today, 43200));
    AfterMidnightUncounted(joined, today);
  }

  /** Counting the users that joined at any time today, the limit holds:
      an account is created only when, with it, at most 50 users joined
      today. */
  lemma DailyLimitKeepsFifty(joined: seq<Joined>, today: Date, second: nat,
                             username: string, usernameProfane: bool, usernameTaken: bool,
                             emailValid: bool, emailTaken: bool, passwordValid: bool, birthdate: Option<Date>)
    requires SignUp(JoinedOn(joined, today), username, usernameProfane, usernameTaken,
                    emailValid, emailTaken, passwordValid, birthdate, today) == AccountCreated
    ensures JoinedOn(joined + [Joined(today, second)], today) <= DAILY_ACCOUNT_LIMIT
  {
    assert (joined + [Joined(today, second)])[..|joined|] == joined;
  }

  /** A person born on 29 February turns 18 on 1 March of the year they
      reach 18, not on 28 February. */
  lemma LeapDayBirthday()
    ensures CalculateAge(Date(2004, 2, 29), Date(2022, 2, 28)) == 17
    ensures CalculateAge(Date(2004, 2, 29), Date(2022, 3, 1)) == 18
  {
  }
}
