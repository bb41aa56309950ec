/**
 * The Google login-state classifier of `google_auth.py`: the page's URL is matched against two
 * pattern lists, then the page is probed for a fixed sequence of elements and texts; the first
 * decisive observation names the state. The page is given as its URL, the outcome of each
 * locator query and the e-mail address the page shows, since the queries themselves run in a
 * browser.
 */
module GoogleAuth {
  import opened Wrappers
  import opened Text

  /** `GoogleLoginStatus`. */
  datatype LoginStatus =
    | LoggedIn | NotLoggedIn | NeedPassword | NeedTwoFactor | NeedRecovery
    | SessionExpired | SecurityCheck | Unknown

  /** The string each state stands for. */
  function Code(s: LoginStatus): string {
    match s
    case LoggedIn => "logged_in"
    case NotLoggedIn => "not_logged_in"
    case NeedPassword => "need_password"
    case NeedTwoFactor => "need_2fa"
    case NeedRecovery => "need_recovery"
    case SessionExpired => "session_expired"
    case SecurityCheck => "security_check"
    case Unknown => "unknown"
  }

  /** Distinct states have distinct strings, so comparing the strings compares the states. */
  lemma CodeInjective(s: LoginStatus, t: LoginStatus)
    ensures Code(s) == Code(t) <==> s == t
  {
  }

  // ===========================================================================
  // The page

  /**
   * The outcome of one locator test (`count() > 0`, with `is_visible()` for the inputs): the
   * element is there, it is not, or the query raised with the given message.
   */
  datatype Probe = Absent | Present | Raises(message: string)

  /**
   * What the classifier can see of a page: its URL, the outcome of the test for each selector,
   * and what the e-mail extraction returns (it catches its own failures and answers `None`).
   */
  datatype Page = Page(url: string, locate: string -> Probe, shownEmail: Option<string>)

  /** `extra_info`: the keys `email` and `error`, each present or not. */
  datatype Info = Info(email: Option<string>, error: Option<string>)

  const NoInfo: Info := Info(None, None)

  /** The pair returned by `check_google_login_status`. */
  datatype Report = Report(status: LoginStatus, info: Info)

  const LoggedInUrlPatterns: seq<string> := [
    "myaccount.google.com", "one.google.com", "mail.google.com",
    "drive.google.com", "docs.google.com", "photos.google.com"
  ]

  const LoginUrlPatterns: seq<string> := [
    "accounts.google.com/signin", "accounts.google.com/v3/signin", "accounts.google.com/AccountChooser"
  ]

  /** The locator for a page text, `text="…"`. */
  function TextSelector(t: string): (r: string)
    ensures |r| == |t| + 7 && StartsWith(r, "text=\"") && r[|r| - 1] == '"'
    ensures r[6..|r| - 1] == t
  {
    "text=\"" + t + "\""
  }

  /** `TextSelector` over a list of texts. */
  function TextSelectors(ts: seq<string>): (r: seq<string>)
    ensures |r| == |ts|
    ensures forall i :: 0 <= i < |ts| ==> r[i] == TextSelector(ts[i])
  {
    if |ts| == 0 then [] else [TextSelector(ts[0])] + TextSelectors(ts[1..])
  }

  /** One step of the page inspection: the selectors tried, and the state they reveal. */
  datatype Rule = Rule(selectors: seq<string>, status: LoginStatus)

  const EmailStep: Rule := Rule(["input[type=\"email\"]"], NotLoggedIn)

  const PasswordStep: Rule := Rule(["input[type=\"password\"]"], NeedPassword)

  const TotpStep: Rule := Rule(["input[name=\"totpPin\"]", "input[id=\"totpPin\"]",
                                "input[type=\"tel\"][autocomplete=\"one-time-code\"]"], NeedTwoFactor)

  const RecoveryStep: Rule := Rule(["input[name=\"knowledgePreregisteredEmailResponse\"]",
                                    "input[id=\"knowledge-preregistered-email-response\"]"], NeedRecovery)

  const ExpiredStep: Rule :=
    Rule(TextSelectors(["Your session has expired", "会话已过期", "Please sign in again", "请重新登录"]), SessionExpired)

  const SecurityStep: Rule :=
    Rule(TextSelectors(["Verify it's you", "确认您的身份", "Unusual sign-in", "异常登录"]), SecurityCheck)

  /** The avatar: an image carrying the user's address, or a sign-out link. */
  const AvatarStep: Rule := Rule(["img[data-user-email], a[href*=\"SignOutOptions\"]"], LoggedIn)

  /** The page inspection, in the order it runs. */
  const Rules: seq<Rule> := [EmailStep, PasswordStep, TotpStep, RecoveryStep, ExpiredStep, SecurityStep, AvatarStep]

  // ===========================================================================
  // Matching

  /** `any(p in url for p in patterns)`, tried in order. */
  function MatchesAny(patterns: seq<string>, url: string): (r: bool)
    ensures r <==> exists i :: 0 <= i < |patterns| && Contains(url, patterns[i])
  {
    if |patterns| == 0 then false
    else Contains(url, patterns[0]) || MatchesAny(patterns[1..], url)
  }

  /**
   * Trying the selectors in order: the first one that is present or raises decides, and when
   * every one is absent, so is the step's answer.
   */
  function Scan(selectors: seq<string>, locate: string -> Probe): (r: Probe)
    ensures r == Absent <==> forall i :: 0 <= i < |selectors| ==> locate(selectors[i]) == Absent
    ensures r != Absent ==>
      exists i :: 0 <= i < |selectors| && locate(selectors[i]) == r
        && forall j :: 0 <= j < i ==> locate(selectors[j]) == Absent
  {
    if |selectors| == 0 then Absent
    else if locate(selectors[0]) != Absent then locate(selectors[0])
    else
      var r := Scan(selectors[1..], locate);
      assert forall i :: 1 <= i < |selectors| ==> selectors[i] == selectors[1..][i - 1];
      r
  }

  /** The e-mail entry: only a non-empty extracted address is recorded. */
  function EmailInfo(shown: Option<string>): (r: Info)
    ensures r.error.None?
    ensures r.email.Some? <==> shown.Some? && shown.value != ""
    ensures r.email.Some? ==> r.email == shown
  {
    if shown.Some? && shown.value != "" then Info(shown, None) else NoInfo
  }

  /** A decisive observation of `status`, with the shown e-mail when it is `LoggedIn`. */
  function Found(status: LoginStatus, page: Page): (r: Report)
    ensures r.status == status && r.info.error.None?
    ensures r.info.email.Some? <==> status == LoggedIn && page.shownEmail.Some? && page.shownEmail.value != ""
    ensures r.info.email.Some? ==> r.info.email == page.shownEmail
  {
    Report(status, if status == LoggedIn then EmailInfo(page.shownEmail) else NoInfo)
  }

  /**
   * The page inspection inside the `try`: the first step that is not absent decides; a query
   * that raises ends the inspection with `Unknown` and the error recorded; nothing decisive
   * yields `Unknown` with no information.
   */
  function Inspect(rules: seq<Rule>, page: Page): (r: Report)
    decreases |rules|
    ensures r.info.error.Some? ==> r.status == Unknown && r.info.email.None?
    ensures r.info.email.Some? ==> r.status == LoggedIn && r.info.email == page.shownEmail
    ensures r.status == LoggedIn ==> r.info == EmailInfo(page.shownEmail)
  {
    if |rules| == 0 then Report(Unknown, NoInfo)
    else
      match Scan(rules[0].selectors, page.locate)
      case Absent => Inspect(rules[1..], page)
      case Present => Found(rules[0].status, page)
      case Raises(m) => Report(Unknown, Info(None, Some(m)))
  }

  /** `check_google_login_status`. */
  function CheckStatus(page: Page): (r: Report)
    ensures MatchesAny(LoggedInUrlPatterns, page.url) ==> r.status == LoggedIn
    ensures !MatchesAny(LoggedInUrlPatterns, page.url) && MatchesAny(LoginUrlPatterns, page.url) ==>
      r == Report(NotLoggedIn, NoInfo)
    ensures r.info.error.Some? ==> r.status == Unknown && r.info.email.None?
    ensures r.info.email.Some? ==> r.status == LoggedIn && r.info.email == page.shownEmail
    ensures r.status == LoggedIn ==> r.info == EmailInfo(page.shownEmail)
  {
    if MatchesAny(LoggedInUrlPatterns, page.url) then Found(LoggedIn, page)
    else if MatchesAny(LoginUrlPatterns, page.url) then Report(NotLoggedIn, NoInfo)
    else Inspect(Rules, page)
  }

  // ===========================================================================
  // The order of the inspection

  /** The steps before `k` all found nothing. */
  predicate NothingBefore(rules: seq<Rule>, page: Page, k: nat)
    requires k <= |rules|
  {
    forall j :: 0 <= j < k ==> Scan(rules[j].selectors, page.locate) == Absent
  }

  /** When the steps before `k` find nothing, the inspection is decided from step `k` on. */
  lemma {:induction false} InspectFrom(rules: seq<Rule>, page: Page, k: nat)
    requires k <= |rules| && NothingBefore(rules, page, k)
    decreases k
    ensures Inspect(rules, page) == Inspect(rules[k..], page)
  {
    if k > 0 {
      assert Scan(rules[0].selectors, page.locate) == Absent;
      assert NothingBefore(rules[1..], page, k - 1) by {
        forall j | 0 <= j < k - 1 ensures Scan(rules[1..][j].selectors, page.locate) == Absent {
          assert rules[1..][j] == rules[j + 1];
        }
      }
      InspectFrom(rules[1..], page, k - 1);
      assert rules[1..][k - 1..] == rules[k..];
    }
  }

  /** The first step that finds its element decides the state. */
  lemma FirstFoundWins(rules: seq<Rule>, page: Page, k: nat)
    requires k < |rules| && NothingBefore(rules, page, k)
    requires Scan(rules[k].selectors, page.locate) == Present
    ensures Inspect(rules, page) == Found(rules[k].status, page)
  {
    InspectFrom(rules, page, k);
  }

  /** The first query that raises ends the inspection with `Unknown` and its message. */
  lemma FirstRaiseWins(rules: seq<Rule>, page: Page, k: nat, message: string)
    requires k < |rules| && NothingBefore(rules, page, k)
    requires Scan(rules[k].selectors, page.locate) == Raises(message)
    ensures Inspect(rules, page) == Report(Unknown, Info(None, Some(message)))
  {
    InspectFrom(rules, page, k);
  }

  /** With no step deciding, the state is `Unknown` and nothing is recorded. */
  lemma NothingFound(rules: seq<Rule>, page: Page)
    requires NothingBefore(rules, page, |rules|)
    ensures Inspect(rules, page) == Report(Unknown, NoInfo)
  {
    InspectFrom(rules, page, |rules|);
  }

  /**
   * Conversely, every report comes from a step: a decisive step `k` with all steps before it
   * finding nothing, or no decisive step at all.
   */
  lemma {:induction false} InspectDecided(rules: seq<Rule>, page: Page)
    decreases |rules|
    ensures (NothingBefore(rules, page, |rules|) && Inspect(rules, page) == Report(Unknown, NoInfo))
      || exists k :: 0 <= k < |rules| && NothingBefore(rules, page, k) && Decides(rules[k], page, Inspect(rules, page))
  {
    if |rules| > 0 {
      var rest := rules[1..];
      if Scan(rules[0].selectors, page.locate) != Absent {
        assert NothingBefore(rules, page, 0);
        assert Decides(rules[0], page, Inspect(rules, page));
      } else {
        InspectDecided(rest, page);
        assert Inspect(rules, page) == Inspect(rest, page);
        if NothingBefore(rest, page, |rest|) && Inspect(rest, page) == Report(Unknown, NoInfo) {
          assert NothingBefore(rules, page, |rules|) by {
            forall j | 0 <= j < |rules| ensures Scan(rules[j].selectors, page.locate) == Absent {
              if j > 0 {
                assert rules[j] == rest[j - 1];
              }
            }
          }
        } else {
          var k :| 0 <= k < |rest| && NothingBefore(rest, page, k) && Decides(rest[k], page, Inspect(rest, page));
          assert rules[k + 1] == rest[k];
          assert NothingBefore(rules, page, k + 1) by {
            forall j | 0 <= j < k + 1 ensures Scan(rules[j].selectors, page.locate) == Absent {
              if j > 0 {
                assert rules[j] == rest[j - 1];
              }
            }
          }
        }
      }
    }
  }

  /** Step `rule` is decisive on `page` and yields `r`. */
  predicate Decides(rule: Rule, page: Page, r: Report) {
    match Scan(rule.selectors, page.locate)
    case Absent => false
    case Present => r == Found(rule.status, page)
    case Raises(m) => r == Report(Unknown, Info(None, Some(m)))
  }

  // ===========================================================================
  // The classifier as a whole

  /** Neither URL list matches, so the page inspection decides. */
  predicate Inspected(page: Page) {
    !MatchesAny(LoggedInUrlPatterns, page.url) && !MatchesAny(LoginUrlPatterns, page.url)
  }

  /**
   * The priority of the inspection: on a page whose URL matches neither list, step `k` of
   * `Rules` (email input, password input, TOTP input, recovery input, session-expired text,
   * security text, avatar) names the state when it is the first to find its element.
   */
  lemma StatusPriority(page: Page, k: nat)
    requires Inspected(page) && k < |Rules| && NothingBefore(Rules, page, k)
    requires Scan(Rules[k].selectors, page.locate) == Present
    ensures CheckStatus(page) == Found(Rules[k].status, page)
  {
    FirstFoundWins(Rules, page, k);
  }

  /** An exception during the inspection yields `Unknown` with the error recorded. */
  lemma ErrorIsUnknown(page: Page, k: nat, message: string)
    requires Inspected(page) && k < |Rules| && NothingBefore(Rules, page, k)
    requires Scan(Rules[k].selectors, page.locate) == Raises(message)
    ensures CheckStatus(page) == Report(Unknown, Info(None, Some(message)))
  {
    FirstRaiseWins(Rules, page, k, message);
  }

  /** With no step standing for `Unknown`, nothing is recorded as `Unknown` exactly when nothing is found. */
  lemma UnknownOnlyWhenNothingFound(rules: seq<Rule>, page: Page)
    requires forall k :: 0 <= k < |rules| ==> rules[k].status != Unknown
    ensures Inspect(rules, page) == Report(Unknown, NoInfo) <==> NothingBefore(rules, page, |rules|)
  {
    if NothingBefore(rules, page, |rules|) {
      NothingFound(rules, page);
    } else {
      InspectDecided(rules, page);
    }
  }

  /**
   * A state that only step `n` stands for is reported exactly when step `n` is the first to find
   * its element.
   */
  lemma OnlyStepYields(rules: seq<Rule>, page: Page, n: nat, status: LoginStatus)
    requires n < |rules| && rules[n].status == status && status != Unknown
    requires forall k :: 0 <= k < |rules| && k != n ==> rules[k].status != status
    ensures Inspect(rules, page).status == status <==>
      NothingBefore(rules, page, n) && Scan(rules[n].selectors, page.locate) == Present
  {
    if NothingBefore(rules, page, n) && Scan(rules[n].selectors, page.locate) == Present {
      FirstFoundWins(rules, page, n);
    } else if Inspect(rules, page).status == status {
      InspectDecided(rules, page);
    }
  }

  /** The statuses the inspection steps stand for. */
  lemma RuleStatuses()
    ensures |Rules| == 7
    ensures Rules[0].status == NotLoggedIn && Rules[1].status == NeedPassword && Rules[2].status == NeedTwoFactor
    ensures Rules[3].status == NeedRecovery && Rules[4].status == SessionExpired
    ensures Rules[5].status == SecurityCheck && Rules[6].status == LoggedIn
    ensures forall k :: 0 <= k < |Rules| ==> Rules[k].status != Unknown
    ensures forall k :: 0 <= k < |Rules| && k != 6 ==> Rules[k].status != LoggedIn
  {
  }

  /** `Unknown` with nothing recorded exactly when the URL matches no list and nothing is found. */
  lemma UnknownIff(page: Page)
    ensures CheckStatus(page) == Report(Unknown, NoInfo) <==> Inspected(page) && NothingBefore(Rules, page, |Rules|)
  {
    RuleStatuses();
    UnknownOnlyWhenNothingFound(Rules, page);
  }

  /**
   * `is_logged_in`: a URL of a signed-in service, or, on a page otherwise inspected, the avatar
   * as the first thing found.
   */
  function IsLoggedIn(page: Page): (r: bool)
  {
    CheckStatus(page).status == LoggedIn
  }

  /** Both directions of what `is_logged_in` answers. */
  lemma IsLoggedInIff(page: Page)
    ensures IsLoggedIn(page) <==>
      MatchesAny(LoggedInUrlPatterns, page.url)
      || (Inspected(page) && NothingBefore(Rules, page, 6) && Scan(AvatarStep.selectors, page.locate) == Present)
  {
    if Inspected(page) {
      RuleStatuses();
      OnlyStepYields(Rules, page, 6, LoggedIn);
      assert Rules[6] == AvatarStep;
    }
  }

  // ===========================================================================
  // The early exit of google_login

  /** The target address, `account_info.get('email', '')`. */
  function TargetEmail(accountInfo: map<string, string>): string {
    if "email" in accountInfo then accountInfo["email"] else ""
  }

  /**
   * `google_login` stops at once, reporting success, when the page is signed in with an
   * extracted address equal to the target one up to case.
   */
  function AlreadySignedIn(page: Page, accountInfo: map<string, string>): (r: bool)
    ensures r <==> (IsLoggedIn(page) && page.shownEmail.Some? && page.shownEmail.value != ""
                    && Lower(page.shownEmail.value) == Lower(TargetEmail(accountInfo)))
  {
    var report := CheckStatus(page);
    var logged := report.info.email.GetOr("");
    report.status == LoggedIn && logged != "" && Lower(logged) == Lower(TargetEmail(accountInfo))
  }

  /** The comparison ignores case: two targets that differ only in case behave alike. */
  lemma AlreadySignedInIgnoresCase(page: Page, info1: map<string, string>, info2: map<string, string>)
    requires Lower(TargetEmail(info1)) == Lower(TargetEmail(info2))
    ensures AlreadySignedIn(page, info1) == AlreadySignedIn(page, info2)
  {
  }

  /** An account without an address never exits early. */
  lemma NoTargetNoExit(page: Page, accountInfo: map<string, string>)
    requires TargetEmail(accountInfo) == ""
    ensures !AlreadySignedIn(page, accountInfo)
  {
  }
}
