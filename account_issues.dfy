/** The account-issue rules: a fixed series of checks on the signed-in
    user, the session, the billing plan and the number of domains, each
    of which may add one issue, followed by a stable sort by severity
    (errors, then warnings, then information). */
module AccountIssues {
  import opened Wrappers
  import opened JsValues

  datatype Severity = Error | Warn | Info

  /** The sort key: error 0, warn 1, info 2. */
  function Rank(s: Severity): nat
  {
    match s
    case Error => 0
    case Warn => 1
    case Info => 2
  }

  /** The button offered with an issue; a callback-only action has no route. */
  datatype Action = Action(title: string, route: Option<string>)

  /** The issue a rule raises, shown as `Details(kind)`. */
  datatype Issue = SessionExpired | AccountLocked | EmailMissing | ProfileIncomplete
                 | MfaDisabled | UnverifiedAccounts | OverDomainLimit | NearDomainLimit

  /** The record pushed for an issue. */
  datatype IssueRecord = IssueRecord(severity: Severity, message: string, action: Action)

  function Details(i: Issue): IssueRecord
  {
    match i
    case SessionExpired =>
      IssueRecord(Error, "Your session has expired. Please sign in again.", Action("Sign Out", None))
    case AccountLocked =>
      IssueRecord(Error, "Your account is locked. Please contact support.", Action("Contact Support", Some("/support")))
    case EmailMissing =>
      IssueRecord(Error, "Your account is missing an email address. Please update your details.",
                  Action("Update Details", Some("/settings/account")))
    case ProfileIncomplete =>
      IssueRecord(Warn, "Your profile is incomplete. Add more details to enhance your account.",
                  Action("Update Profile", Some("/settings/account")))
    case MfaDisabled =>
      IssueRecord(Warn, "You have not enabled multi-factor authentication. Add an extra layer of security.",
                  Action("Setup MFA", Some("/settings/account")))
    case UnverifiedAccounts =>
      IssueRecord(Warn, "One or more third-party accounts are unverified.",
                  Action("Verify Accounts", Some("/settings/account")))
    case OverDomainLimit =>
      IssueRecord(Error, "You have exceeded the limit of domains on your current plan. Remove some domains, or upgrade to continue using.",
                  Action("Upgrade Plan", Some("/settings/upgrade")))
    case NearDomainLimit =>
      IssueRecord(Info, "You are approaching the limit of the free plan, consider upgrading to add more domains and access additional features.",
                  Action("Upgrade Plan", Some("/settings/upgrade")))
  }

  /** An issue's severity. */
  function SeverityOf(i: Issue): Severity
  {
    match i
    case SessionExpired => Error
    case AccountLocked => Error
    case EmailMissing => Error
    case OverDomainLimit => Error
    case ProfileIncomplete => Warn
    case MfaDisabled => Warn
    case UnverifiedAccounts => Warn
    case NearDomainLimit => Info
  }

  /** The severity used by the sort is the one each issue record carries. */
  lemma SeverityOfIsRecorded(i: Issue)
    ensures SeverityOf(i) == Details(i).severity
  {
    match i
    case SessionExpired =>
    case AccountLocked =>
    case EmailMissing =>
    case ProfileIncomplete =>
    case MfaDisabled =>
    case UnverifiedAccounts =>
    case OverDomainLimit =>
    case NearDomainLimit =>
  }

  // ---------------------------------------------------------------------
  // Inputs
  // ---------------------------------------------------------------------

  datatype Identity = Identity(provider: Option<string>)

  /** The signed-in user as the auth service reports it. */
  datatype User = User(email: Option<string>, emailConfirmedAt: Option<string>,
                       metadata: Option<map<string, JsValue>>, identities: Option<seq<Identity>>)

  /** The result of an awaited call: its value, or an exception. */
  datatype Fetch<T> = Fetched(value: T) | FetchThrew

  /** What the checks read: the user (`null` when signed out), whether a
      session exists, the stored `current_plan`, and the domain count
      (`null` when the count is not available). */
  datatype AccountInputs = AccountInputs(user: Fetch<Option<User>>, session: Fetch<bool>,
                                         currentPlan: Fetch<Option<string>>, domainCount: Fetch<Option<int>>)

  predicate TruthyText(s: Option<string>)
  {
    s.Some? && s.value != ""
  }

  /** `user?.user?.user_metadata?.[key]`. */
  function Meta(u: Option<User>, key: string): Option<JsValue>
  {
    if u.Some? && u.value.metadata.Some? then Get(u.value.metadata.value, key) else None
  }

  /** The locked check indexes `user_metadata` without `?.`: it throws for
      a signed-in user without metadata. */
  predicate LockedCheckThrows(u: Option<User>)
  {
    u.Some? && u.value.metadata.None?
  }

  predicate IsLocked(u: Option<User>)
  {
    Present(Meta(u, "locked"))
  }

  predicate LacksEmail(u: Option<User>)
  {
    !(u.Some? && TruthyText(u.value.email))
  }

  predicate LacksProfile(u: Option<User>)
  {
    !Present(Meta(u, "name")) || !Present(Meta(u, "avatar_url"))
  }

  /** `user?.user?.identities?.[0]?.provider`. */
  function FirstProvider(u: Option<User>): Option<string>
  {
    if u.Some? && u.value.identities.Some? && |u.value.identities.value| > 0
    then u.value.identities.value[0].provider
    else None
  }

  predicate LacksMfa(u: Option<User>)
  {
    !Present(Meta(u, "mfa_enabled")) && FirstProvider(u) != Some("github")
  }

  /** Some identity has a provider while the e-mail is unconfirmed. */
  predicate HasUnverifiedIdentity(u: Option<User>)
  {
    u.Some? && u.value.identities.Some? && !TruthyText(u.value.emailConfirmedAt)
    && exists i :: 0 <= i < |u.value.identities.value| && TruthyText(u.value.identities.value[i].provider)
  }

  /** The plan issue for a free plan's domain count. */
  function DomainLimitIssues(count: Option<int>): (r: seq<Issue>)
    ensures count.Some? && count.value > 5 ==> r == [OverDomainLimit]
    ensures count.Some? && 3 < count.value <= 5 ==> r == [NearDomainLimit]
    ensures count == None || count.value <= 3 ==> r == []
  {
    if count.Some? && count.value > 5 then [OverDomainLimit]
    else if count.Some? && count.value > 3 then [NearDomainLimit]
    else []
  }

  function When(c: bool, i: Issue): seq<Issue>
  {
    if c then [i] else []
  }

  /** The user checks after the locked check, in order, pushed after `before`. */
  function UserIssues(before: seq<Issue>, u: Option<User>): seq<Issue>
  {
    before + When(IsLocked(u), AccountLocked) + When(LacksEmail(u), EmailMissing) + When(LacksProfile(u), ProfileIncomplete)
    + When(LacksMfa(u), MfaDisabled) + When(HasUnverifiedIdentity(u), UnverifiedAccounts)
  }

  /** The issues pushed, in push order, up to the end or up to an exception. */
  function Collected(inputs: AccountInputs): seq<Issue>
  {
    if inputs.user.FetchThrew? || inputs.session.FetchThrew? || inputs.currentPlan.FetchThrew? then []
    else
      var u := inputs.user.value;
      var before := When(!inputs.session.value, SessionExpired);
      if LockedCheckThrows(u) then before
      else
        var checked := UserIssues(before, u);
        if OrText(inputs.currentPlan.value, "free") != "free" then checked
        else if inputs.domainCount.FetchThrew? then checked
        else checked + DomainLimitIssues(inputs.domainCount.value)
  }

  // ---------------------------------------------------------------------
  // The severity sort
  // ---------------------------------------------------------------------

  /** The issues of one severity, in order. */
  function OfSeverity(xs: seq<Issue>, s: Severity): (r: seq<Issue>)
    ensures |r| <= |xs|
  {
    if xs == [] then []
    else OfSeverity(xs[..|xs| - 1], s) + When(SeverityOf(xs[|xs| - 1]) == s, xs[|xs| - 1])
  }

  lemma OfSeveritySnoc(xs: seq<Issue>, x: Issue, s: Severity)
    ensures OfSeverity(xs + [x], s) == OfSeverity(xs, s) + When(SeverityOf(x) == s, x)
  {
    assert (xs + [x])[..|xs + [x]| - 1] == xs;
  }

  /** A stable sort by severity: errors, then warnings, then information,
      each in the order pushed. */
  function SortBySeverity(xs: seq<Issue>): seq<Issue>
  {
    OfSeverity(xs, Error) + OfSeverity(xs, Warn) + OfSeverity(xs, Info)
  }

  predicate SortedByRank(xs: seq<Issue>)
  {
    forall i, j :: 0 <= i < j < |xs| ==> Rank(SeverityOf(xs[i])) <= Rank(SeverityOf(xs[j]))
  }

  lemma {:induction false} OfSeverityAll(xs: seq<Issue>, s: Severity)
    ensures forall i :: 0 <= i < |OfSeverity(xs, s)| ==> SeverityOf(OfSeverity(xs, s)[i]) == s
  {
    if xs != [] {
      OfSeverityAll(xs[..|xs| - 1], s);
    }
  }

  /** The sorted issues are ordered error, warn, info. */
  lemma SortBySeveritySorted(xs: seq<Issue>)
    ensures SortedByRank(SortBySeverity(xs))
  {
    OfSeverityAll(xs, Error);
    OfSeverityAll(xs, Warn);
    OfSeverityAll(xs, Info);
    var e, w, n := OfSeverity(xs, Error), OfSeverity(xs, Warn), OfSeverity(xs, Info);
    var r := e + w + n;
    forall i | 0 <= i < |r|
      ensures Rank(SeverityOf(r[i])) == (if i < |e| then 0 else if i < |e| + |w| then 1 else 2)
    {
      if i < |e| {
        assert r[i] == e[i];
      } else if i < |e| + |w| {
        assert r[i] == w[i - |e|];
      } else {
        assert r[i] == n[i - |e| - |w|];
      }
    }
  }

  /** Sorting adds and loses nothing. */
  lemma {:induction false} SortBySeverityPermutes(xs: seq<Issue>)
    ensures multiset(SortBySeverity(xs)) == multiset(xs)
  {
    if xs != [] {
      var init, x := xs[..|xs| - 1], xs[|xs| - 1];
      SortBySeverityPermutes(init);
      assert xs == init + [x];
      SortBySeveritySnoc(init, x);
    }
  }

  lemma SortBySeveritySnoc(xs: seq<Issue>, x: Issue)
    ensures multiset(SortBySeverity(xs + [x])) == multiset(SortBySeverity(xs)) + multiset{x}
  {
    var e, w, n := OfSeverity(xs, Error), OfSeverity(xs, Warn), OfSeverity(xs, Info);
    var we, ww, wn := When(SeverityOf(x) == Error, x), When(SeverityOf(x) == Warn, x), When(SeverityOf(x) == Info, x);
    OfSeveritySnoc(xs, x, Error);
    OfSeveritySnoc(xs, x, Warn);
    OfSeveritySnoc(xs, x, Info);
    assert SortBySeverity(xs + [x]) == (e + we) + (w + ww) + (n + wn);
    InterleavedMultiset(e, w, n, we, ww, wn);
    OneSeverity(x);
  }

  /** An issue has exactly one severity. */
  lemma OneSeverity(x: Issue)
    ensures When(SeverityOf(x) == Error, x) + When(SeverityOf(x) == Warn, x) + When(SeverityOf(x) == Info, x) == [x]
  {
  }

  lemma InterleavedMultiset(e: seq<Issue>, w: seq<Issue>, n: seq<Issue>, we: seq<Issue>, ww: seq<Issue>, wn: seq<Issue>)
    ensures multiset((e + we) + (w + ww) + (n + wn)) == multiset(e + w + n) + multiset(we + ww + wn)
  {
  }

  lemma {:induction false} OfSeverityAppend(xs: seq<Issue>, ys: seq<Issue>, s: Severity)
    ensures OfSeverity(xs + ys, s) == OfSeverity(xs, s) + OfSeverity(ys, s)
    decreases |ys|
  {
    if ys == [] {
      assert xs + ys == xs;
    } else {
      var init, y := ys[..|ys| - 1], ys[|ys| - 1];
      assert ys == init + [y];
      assert xs + ys == (xs + init) + [y];
      OfSeverityAppend(xs, init, s);
      OfSeveritySnoc(xs + init, y, s);
      OfSeveritySnoc(init, y, s);
      ConcatAssoc(OfSeverity(xs, s), OfSeverity(init, s), When(SeverityOf(y) == s, y));
    }
  }

  lemma ConcatAssoc(a: seq<Issue>, b: seq<Issue>, c: seq<Issue>)
    ensures (a + b) + c == a + (b + c)
  {
  }

  lemma OfSeverityOfOther(xs: seq<Issue>, s: Severity, t: Severity)
    ensures OfSeverity(OfSeverity(xs, t), s) == if s == t then OfSeverity(xs, t) else []
  {
    OfSeverityAll(xs, t);
    OfSeverityHomogeneous(OfSeverity(xs, t), s, t);
  }

  lemma {:induction false} OfSeverityHomogeneous(xs: seq<Issue>, s: Severity, t: Severity)
    requires forall i :: 0 <= i < |xs| ==> SeverityOf(xs[i]) == t
    ensures OfSeverity(xs, s) == if s == t then xs else []
  {
    if xs != [] {
      OfSeverityHomogeneous(xs[..|xs| - 1], s, t);
    }
  }

  /** The sort is stable: the issues of each severity keep their push order. */
  lemma SortBySeverityStable(xs: seq<Issue>, s: Severity)
    ensures OfSeverity(SortBySeverity(xs), s) == OfSeverity(xs, s)
  {
    var e, w, n := OfSeverity(xs, Error), OfSeverity(xs, Warn), OfSeverity(xs, Info);
    OfSeverityAppend(e + w, n, s);
    OfSeverityAppend(e, w, s);
    OfSeverityOfOther(xs, s, Error);
    OfSeverityOfOther(xs, s, Warn);
    OfSeverityOfOther(xs, s, Info);
  }

  /** Appends the issues of one severity, scanning `xs` in order. */
  method AppendOfSeverity(acc: seq<Issue>, xs: seq<Issue>, s: Severity) returns (r: seq<Issue>)
    ensures r == acc + OfSeverity(xs, s)
  {
    r := acc;
    for i := 0 to |xs|
      invariant r == acc + OfSeverity(xs[..i], s)
    {
      assert xs[..i + 1][..i] == xs[..i];
      if SeverityOf(xs[i]) == s {
        r := r + [xs[i]];
      }
    }
    assert xs[..|xs|] == xs;
  }

  /** `issues.sort` by severity rank. */
  method SortIssues(xs: seq<Issue>) returns (sorted: seq<Issue>)
    ensures sorted == SortBySeverity(xs)
  {
    sorted := AppendOfSeverity([], xs, Error);
    sorted := AppendOfSeverity(sorted, xs, Warn);
    sorted := AppendOfSeverity(sorted, xs, Info);
  }

  /** The user checks after the locked check, each pushing its issue. */
  method PushUserIssues(before: seq<Issue>, u: Option<User>) returns (pushed: seq<Issue>)
    ensures pushed == UserIssues(before, u)
  {
    pushed := before;
    if IsLocked(u) {
      pushed := pushed + [AccountLocked];
    }
    assert pushed == before + When(IsLocked(u), AccountLocked);
    if LacksEmail(u) {
      pushed := pushed + [EmailMissing];
    }
    assert pushed == before + When(IsLocked(u), AccountLocked) + When(LacksEmail(u), EmailMissing);
    if LacksProfile(u) {
      pushed := pushed + [ProfileIncomplete];
    }
    assert pushed == before + When(IsLocked(u), AccountLocked) + When(LacksEmail(u), EmailMissing)
                     + When(LacksProfile(u), ProfileIncomplete);
    if LacksMfa(u) {
      pushed := pushed + [MfaDisabled];
    }
    assert pushed == before + When(IsLocked(u), AccountLocked) + When(LacksEmail(u), EmailMissing)
                     + When(LacksProfile(u), ProfileIncomplete) + When(LacksMfa(u), MfaDisabled);
    if HasUnverifiedIdentity(u) {
      pushed := pushed + [UnverifiedAccounts];
    }
  }

  /** The checks of `getAccountIssues` in order; an exception ends them but
      keeps what was pushed. */
  method PushIssues(inputs: AccountInputs) returns (pushed: seq<Issue>)
    ensures pushed == Collected(inputs)
  {
    pushed := [];
    if inputs.user.FetchThrew? || inputs.session.FetchThrew? || inputs.currentPlan.FetchThrew? {
      return;
    }
    var u := inputs.user.value;
    if !inputs.session.value {
      pushed := pushed + [SessionExpired];
    }
    assert pushed == When(!inputs.session.value, SessionExpired);
    if LockedCheckThrows(u) {
      return;
    }
    pushed := PushUserIssues(pushed, u);
    if OrText(inputs.currentPlan.value, "free") == "free" && inputs.domainCount.Fetched? {
      var count := inputs.domainCount.value;
      if count.Some? && count.value > 5 {
        pushed := pushed + [OverDomainLimit];
      } else if count.Some? && count.value > 3 {
        pushed := pushed + [NearDomainLimit];
      }
    }
  }

  /** `getAccountIssues`: the issues pushed by the checks, sorted by severity. */
  method GetAccountIssues(inputs: AccountInputs) returns (issues: seq<Issue>)
    ensures issues == SortBySeverity(Collected(inputs))
  {
    var pushed := PushIssues(inputs);
    issues := SortIssues(pushed);
  }

  // ---------------------------------------------------------------------
  // The rules
  // ---------------------------------------------------------------------

  /** The inputs under which every check runs to the end. */
  predicate ChecksComplete(inputs: AccountInputs)
  {
    inputs.user.Fetched? && inputs.session.Fetched? && inputs.currentPlan.Fetched?
    && inputs.domainCount.Fetched? && !LockedCheckThrows(inputs.user.value)
  }

  /** A missing session gives exactly one session-expired error, whatever
      happens after it. */
  lemma MissingSessionIsError(inputs: AccountInputs)
    requires inputs.user.Fetched? && inputs.session.Fetched? && inputs.currentPlan.Fetched?
    ensures (SessionExpired in Collected(inputs)) <==> !inputs.session.value
    ensures !inputs.session.value ==> Collected(inputs)[0] == SessionExpired
  {
  }

  /** Each user rule adds its issue exactly when its condition holds. */
  lemma UserRules(inputs: AccountInputs)
    requires ChecksComplete(inputs)
    ensures var u := inputs.user.value;
            (ProfileIncomplete in Collected(inputs) <==> LacksProfile(u))
            && (MfaDisabled in Collected(inputs) <==> LacksMfa(u))
            && (AccountLocked in Collected(inputs) <==> IsLocked(u))
            && (EmailMissing in Collected(inputs) <==> LacksEmail(u))
            && (UnverifiedAccounts in Collected(inputs) <==> HasUnverifiedIdentity(u))
  {
    var u := inputs.user.value;
    var before := When(!inputs.session.value, SessionExpired);
    var tail := CompleteTail(inputs);
    UserIssuesMembers(before, u);
    MembersOfConcat(UserIssues(before, u), tail);
  }

  /** With every check complete, the user checks are followed only by plan issues. */
  function CompleteTail(inputs: AccountInputs): (tail: seq<Issue>)
    requires ChecksComplete(inputs)
    ensures Collected(inputs) == UserIssues(When(!inputs.session.value, SessionExpired), inputs.user.value) + tail
    ensures forall x :: x in tail ==> x == OverDomainLimit || x == NearDomainLimit
  {
    if OrText(inputs.currentPlan.value, "free") != "free" then [] else DomainLimitIssues(inputs.domainCount.value)
  }

  lemma MembersOfConcat(a: seq<Issue>, b: seq<Issue>)
    ensures forall x :: x in a + b <==> x in a || x in b
  {
  }

  /** What the user checks push after `before`. */
  lemma UserIssuesMembers(before: seq<Issue>, u: Option<User>)
    ensures forall x :: x in UserIssues(before, u) <==>
              x in before || (x == AccountLocked && IsLocked(u)) || (x == EmailMissing && LacksEmail(u))
              || (x == ProfileIncomplete && LacksProfile(u)) || (x == MfaDisabled && LacksMfa(u))
              || (x == UnverifiedAccounts && HasUnverifiedIdentity(u))
  {
  }

  /** The plan rules: over five domains on the free plan is an error, four
      or five is information, anything else (or another plan) adds nothing;
      a missing plan counts as free. */
  lemma PlanRules(inputs: AccountInputs)
    requires ChecksComplete(inputs)
    ensures var free := OrText(inputs.currentPlan.value, "free") == "free";
            var c := inputs.domainCount.value;
            (OverDomainLimit in Collected(inputs) <==> free && c.Some? && c.value > 5)
            && (NearDomainLimit in Collected(inputs) <==> free && c.Some? && 3 < c.value <= 5)
  {
    var u := inputs.user.value;
    var before := When(!inputs.session.value, SessionExpired);
    var tail := CompleteTail(inputs);
    UserIssuesMembers(before, u);
    MembersOfConcat(UserIssues(before, u), tail);
  }

  /** The locked check throwing keeps only the session issue pushed before it. */
  lemma ExceptionKeepsEarlierIssues(inputs: AccountInputs)
    requires inputs.user.Fetched? && inputs.session.Fetched? && inputs.currentPlan.Fetched?
    requires LockedCheckThrows(inputs.user.value)
    ensures Collected(inputs) == (if inputs.session.value then [] else [SessionExpired])
  {
  }

  /** A signed-out user without a session, on no recorded plan, with six
      domains: the issues in push order. */
  lemma SignedOutCollected()
    ensures Collected(AccountInputs(Fetched(None), Fetched(false), Fetched(None), Fetched(Some(6))))
            == [SessionExpired, EmailMissing, ProfileIncomplete, MfaDisabled, OverDomainLimit]
  {
    assert !IsLocked(None) && LacksEmail(None) && LacksProfile(None) && LacksMfa(None) && !HasUnverifiedIdentity(None);
    assert UserIssues([SessionExpired], None) == [SessionExpired, EmailMissing, ProfileIncomplete, MfaDisabled];
  }

  /** The example sorted: its errors move ahead of the warnings, each group
      in push order. */
  lemma SignedOutSorted()
    ensures SortBySeverity([SessionExpired, EmailMissing, ProfileIncomplete, MfaDisabled, OverDomainLimit])
            == [SessionExpired, EmailMissing, OverDomainLimit, ProfileIncomplete, MfaDisabled]
  {
    var p1 := [SessionExpired];
    var p2 := p1 + [EmailMissing];
    var p3 := p2 + [ProfileIncomplete];
    var p4 := p3 + [MfaDisabled];
    assert p1 == [] + [SessionExpired];
    assert p4 + [OverDomainLimit] == [SessionExpired, EmailMissing, ProfileIncomplete, MfaDisabled, OverDomainLimit];
    forall s: Severity
      ensures OfSeverity(p4 + [OverDomainLimit], s)
              == When(s == Error, SessionExpired) + When(s == Error, EmailMissing) + When(s == Warn, ProfileIncomplete)
                 + When(s == Warn, MfaDisabled) + When(s == Error, OverDomainLimit)
    {
      OfSeveritySnoc([], SessionExpired, s);
      OfSeveritySnoc(p1, EmailMissing, s);
      OfSeveritySnoc(p2, ProfileIncomplete, s);
      OfSeveritySnoc(p3, MfaDisabled, s);
      OfSeveritySnoc(p4, OverDomainLimit, s);
    }
  }
}
