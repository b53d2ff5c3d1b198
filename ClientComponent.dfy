/** `withLoggerAndValidation` of `app/practice/hoc/ClientComponent.tsx`: the e-mail
    filter applied to the user list, the warning condition, the props handed to the
    wrapped component and the display name given to the wrapper. Logging is dropped;
    the warning is a returned flag. */
module ClientComponent {
  import opened Wrappers

  /** One user record (`IProps`). */
  datatype UserProps = UserProps(userId: string, userPswd: string, userEmail: string, userTelno: string)

  /** The props of the wrapper (`HOCProps`): the user list and whatever other props
      the caller passes, which the spread `{...props}` forwards unchanged. */
  datatype HocProps = HocProps(userList: seq<UserProps>, others: map<string, string>)

  // ---------------------------------------------------------------------------
  // The pattern /^[^\s@]+@[^\s@]+\.[^\s@]+$/
  // ---------------------------------------------------------------------------

  /** ECMAScript `\s`: the WhiteSpace and LineTerminator code points. */
  predicate IsWhitespace(c: char) {
    var n := c as int;
    n == 0x09 || n == 0x0A || n == 0x0B || n == 0x0C || n == 0x0D || n == 0x20
    || n == 0xA0 || n == 0x1680 || (0x2000 <= n <= 0x200A) || n == 0x2028 || n == 0x2029
    || n == 0x202F || n == 0x205F || n == 0x3000 || n == 0xFEFF
  }

  /** The character class `[^\s@]`. */
  predicate AtomChar(c: char) {
    !IsWhitespace(c) && c != '@'
  }

  /** `s[lo..hi]` is matched by `[^\s@]+`. */
  ghost predicate AtomRun(s: string, lo: int, hi: int)
    requires 0 <= lo <= hi <= |s|
  {
    lo < hi && forall k :: lo <= k < hi ==> AtomChar(s[k])
  }

  /** What the anchored regular expression accepts: `s` splits as
      run `@` run `.` run, with `s[i] == '@'` and `s[j] == '.'`. */
  ghost predicate RegexMatches(s: string) {
    exists i, j :: 0 <= i < j < |s| && s[i] == '@' && s[j] == '.'
                   && AtomRun(s, 0, i) && AtomRun(s, i + 1, j) && AtomRun(s, j + 1, |s|)
  }

  /** Every character of `s` is in `[^\s@]`. */
  predicate AtomString(s: string) {
    forall k :: 0 <= k < |s| ==> AtomChar(s[k])
  }

  /** Joining three non-empty runs of `[^\s@]` with `@` and `.` gives an accepted e-mail. */
  lemma ValidEmailFromParts(local: string, host: string, tld: string)
    requires |local| > 0 && |host| > 0 && |tld| > 0
    requires AtomString(local) && AtomString(host) && AtomString(tld)
    ensures ValidEmail(local + "@" + host + "." + tld)
  {
    var s := local + "@" + host + "." + tld;
    var at, dot := |local|, |local| + 1 + |host|;
    assert !IsWhitespace('@') && !IsWhitespace('.');
    forall k | 0 <= k < |s| ensures !IsWhitespace(s[k]) && (k != at ==> s[k] != '@') {
      if k < at { assert s[k] == local[k]; }
      else if at < k < dot { assert s[k] == host[k - at - 1]; }
      else if k > dot { assert s[k] == tld[k - dot - 1]; }
    }
    assert OnlyAtSignAt(s, at) && s[dot] == '.';
  }

  predicate NoWhitespace(s: string) {
    forall k :: 0 <= k < |s| ==> !IsWhitespace(s[k])
  }

  /** `s[at]` is the only `@` in `s`. */
  predicate OnlyAtSignAt(s: string, at: int)
    requires 0 <= at < |s|
  {
    s[at] == '@' && forall k :: 0 <= k < |s| && k != at ==> s[k] != '@'
  }

  /** The structural reading of the pattern: no whitespace, exactly one `@`, something
      before it, and a `.` after it that is neither the first nor the last character
      of the domain part. This is the test the filter applies. */
  predicate ValidEmail(s: string) {
    NoWhitespace(s)
    && exists at :: 0 < at < |s| && OnlyAtSignAt(s, at)
                     && exists dot :: at + 1 < dot < |s| - 1 && s[dot] == '.'
  }

  /** The structural test accepts exactly the strings the regular expression matches. */
  lemma ValidEmailIffRegex(s: string)
    ensures ValidEmail(s) <==> RegexMatches(s)
  {
    assert !IsWhitespace('@') && !IsWhitespace('.');
    if ValidEmail(s) {
      var at :| 0 < at < |s| && OnlyAtSignAt(s, at)
                && exists dot :: at + 1 < dot < |s| - 1 && s[dot] == '.';
      var dot :| at + 1 < dot < |s| - 1 && s[dot] == '.';
      assert AtomRun(s, 0, at);
      assert AtomRun(s, at + 1, dot);
      assert AtomRun(s, dot + 1, |s|);
    }
    if RegexMatches(s) {
      var i, j :| 0 <= i < j < |s| && s[i] == '@' && s[j] == '.'
                  && AtomRun(s, 0, i) && AtomRun(s, i + 1, j) && AtomRun(s, j + 1, |s|);
      forall k | 0 <= k < |s| && k != i ensures AtomChar(s[k]) || k == j {
        if k < i {
          assert AtomChar(s[k]);
        } else if k < j {
          assert AtomChar(s[k]);
        } else if k > j {
          assert AtomChar(s[k]);
        }
      }
      assert NoWhitespace(s);
      assert OnlyAtSignAt(s, i);
    }
  }

  // ---------------------------------------------------------------------------
  // The filter and the warning
  // ---------------------------------------------------------------------------

  /** `props.userList.filter(user => regex.test(user.userEmail))`. */
  function ValidateUsers(users: seq<UserProps>): (r: seq<UserProps>)
    ensures |r| <= |users|
    ensures forall u :: u in r <==> u in users && ValidEmail(u.userEmail)
  {
    if users == [] then []
    else
      (if ValidEmail(users[0].userEmail) then [users[0]] else []) + ValidateUsers(users[1..])
  }

  /** Each accepted user is kept as many times as it occurs; a rejected one never is. */
  lemma {:induction false} ValidateUsersMultiplicity(users: seq<UserProps>, u: UserProps)
    ensures multiset(ValidateUsers(users))[u] == if ValidEmail(u.userEmail) then multiset(users)[u] else 0
  {
    if users != [] {
      assert users == [users[0]] + users[1..];
      ValidateUsersMultiplicity(users[1..], u);
    }
  }

  /** The filter keeps order: filtering a concatenation concatenates the filtered parts. */
  lemma {:induction false} ValidateUsersConcat(a: seq<UserProps>, b: seq<UserProps>)
    ensures ValidateUsers(a + b) == ValidateUsers(a) + ValidateUsers(b)
  {
    if a == [] {
      assert a + b == b;
    } else {
      assert (a + b)[1..] == a[1..] + b;
      ValidateUsersConcat(a[1..], b);
    }
  }

  predicate AllValid(users: seq<UserProps>) {
    forall k :: 0 <= k < |users| ==> ValidEmail(users[k].userEmail)
  }

  /** `validatedUsers.length !== props.userList.length`. */
  predicate ShouldWarn(users: seq<UserProps>) {
    |ValidateUsers(users)| != |users|
  }

  /** A list whose every e-mail passes is returned unchanged. */
  lemma {:induction false} ValidateAllValid(users: seq<UserProps>)
    requires AllValid(users)
    ensures ValidateUsers(users) == users
  {
    if users != [] {
      ValidateAllValid(users[1..]);
    }
  }

  /** The filter drops at least one user whenever some e-mail fails. */
  lemma {:induction false} ValidateShrinksOnReject(users: seq<UserProps>)
    requires !AllValid(users)
    ensures |ValidateUsers(users)| < |users|
  {
    if !ValidEmail(users[0].userEmail) {
    } else {
      assert !AllValid(users[1..]) by {
        var k :| 0 <= k < |users| && !ValidEmail(users[k].userEmail);
        assert users[1..][k - 1] == users[k];
      }
      ValidateShrinksOnReject(users[1..]);
    }
  }

  /** The warning is raised exactly when some input e-mail is rejected. */
  lemma WarnIffSomeRejected(users: seq<UserProps>)
    ensures ShouldWarn(users) <==> !AllValid(users)
  {
    if AllValid(users) {
      ValidateAllValid(users);
    } else {
      ValidateShrinksOnReject(users);
    }
  }

  /** Filtering an already validated list changes nothing and raises no warning. */
  lemma ValidateIdempotent(users: seq<UserProps>)
    ensures ValidateUsers(ValidateUsers(users)) == ValidateUsers(users)
    ensures !ShouldWarn(ValidateUsers(users))
  {
    var r := ValidateUsers(users);
    assert AllValid(r) by {
      forall k | 0 <= k < |r| ensures ValidEmail(r[k].userEmail) {
        assert r[k] in r;
      }
    }
    ValidateAllValid(r);
  }

  // ---------------------------------------------------------------------------
  // Rendering the wrapper
  // ---------------------------------------------------------------------------

  /** What one render of the wrapper produces: the props passed to the wrapped
      component and whether the warning was issued. */
  datatype HocRender = HocRender(wrappedProps: HocProps, warned: bool)

  /** The body of `HOC(props)`. */
  function RenderHoc(props: HocProps): (out: HocRender)
    ensures out.wrappedProps.others == props.others
    ensures out.wrappedProps.userList == ValidateUsers(props.userList)
    ensures out.warned <==> !AllValid(props.userList)
  {
    var validated := ValidateUsers(props.userList);
    WarnIffSomeRejected(props.userList);
    HocRender(props.(userList := validated), |validated| != |props.userList|)
  }

  // ---------------------------------------------------------------------------
  // Display names
  // ---------------------------------------------------------------------------

  /** A component as far as naming goes: its optional `displayName` and its
      function `name` (empty for an anonymous function). */
  datatype Component = Component(displayName: Option<string>, name: string)

  /** `c.displayName || c.name || "Component"`: the first non-empty of the three. */
  function NameOf(c: Component): (n: string)
    ensures n != ""
    ensures c.displayName.Some? && c.displayName.value != "" ==> n == c.displayName.value
    ensures (c.displayName.None? || c.displayName.value == "") && c.name != "" ==> n == c.name
    ensures (c.displayName.None? || c.displayName.value == "") && c.name == "" ==> n == "Component"
  {
    if c.displayName.Some? && c.displayName.value != "" then c.displayName.value
    else if c.name != "" then c.name
    else "Component"
  }

  const HocPrefix := "withLoggerAndValidation("

  /** `withLoggerAndValidation(WrappedComponent)` as a component: the arrow function
      `HOC`, whose `displayName` is set to wrap the wrapped component's name. */
  function WithLoggerAndValidation(wrapped: Component): (hoc: Component)
    ensures hoc.name == "HOC" && hoc.displayName.Some?
    ensures var d := hoc.displayName.value;
            |d| == |HocPrefix| + |NameOf(wrapped)| + 1
            && d[..|HocPrefix|] == HocPrefix
            && d[|HocPrefix|..|d| - 1] == NameOf(wrapped)
            && d[|d| - 1] == ')'
  {
    var d := HocPrefix + NameOf(wrapped) + ")";
    assert d[|HocPrefix|..|d| - 1] == NameOf(wrapped);
    Component(Some(d), "HOC")
  }

  /** The wrapper's display name determines the wrapped component's chosen name. */
  lemma DisplayNameInjective(c1: Component, c2: Component)
    requires WithLoggerAndValidation(c1).displayName == WithLoggerAndValidation(c2).displayName
    ensures NameOf(c1) == NameOf(c2)
  {
    var d := WithLoggerAndValidation(c1).displayName.value;
    assert NameOf(c1) == d[|HocPrefix|..|d| - 1] == NameOf(c2);
  }

  /** The component declared in the same file: its `displayName` wins over its `name`. */
  lemma DisplayUserInfoComponentName()
    ensures WithLoggerAndValidation(Component(Some("DisplayNameIsDisplayUserInfoComponent"), "DisplayUserInfoComponent")).displayName
            == Some("withLoggerAndValidation(" + "DisplayNameIsDisplayUserInfoComponent" + ")")
  {
    var c := Component(Some("DisplayNameIsDisplayUserInfoComponent"), "DisplayUserInfoComponent");
    assert NameOf(c) == "DisplayNameIsDisplayUserInfoComponent";
  }

  // ---------------------------------------------------------------------------
  // The fixture of ServerComponent.tsx
  // ---------------------------------------------------------------------------

  const User1 := UserProps("user01", "111111", "userEmail@naver.com", "010-1111-2222")
  const User2 := UserProps("user02", "222222", "userEmail2@naver.com", "010-2222-3333")
  const User3 := UserProps("user03", "333333", "invaildEmailgamil.com", "010-3333-4444")

  /** The first fixture e-mail is accepted. */
  lemma FixtureUser1Valid()
    ensures ValidEmail(User1.userEmail)
  {
    assert AtomString("userEmail") && AtomString("naver") && AtomString("com");
    assert User1.userEmail == "userEmail" + "@" + "naver" + "." + "com";
    ValidEmailFromParts("userEmail", "naver", "com");
  }

  /** The second fixture e-mail is accepted. */
  lemma FixtureUser2Valid()
    ensures ValidEmail(User2.userEmail)
  {
    assert AtomString("userEmail2") && AtomString("naver") && AtomString("com");
    assert User2.userEmail == "userEmail2" + "@" + "naver" + "." + "com";
    ValidEmailFromParts("userEmail2", "naver", "com");
  }

  /** The third fixture e-mail has no `@` and is rejected. */
  lemma FixtureUser3Invalid()
    ensures !ValidEmail(User3.userEmail)
  {
    var e3 := User3.userEmail;
    assert forall k :: 0 <= k < |e3| ==> e3[k] != '@';
  }

  /** Filtering the fixture list keeps the first two users and drops the third. */
  lemma FixtureValidated()
    ensures ValidateUsers([User1, User2, User3]) == [User1, User2]
  {
    FixtureUser3Invalid();
    assert ValidateUsers([User3]) == [] by { assert [User3][1..] == []; }
    FixtureUser2Valid();
    assert ValidateUsers([User2, User3]) == [User2] by { assert [User2, User3][1..] == [User3]; }
    FixtureUser1Valid();
    assert [User1, User2, User3][1..] == [User2, User3];
  }

  /** Rendering the wrapper on the fixture list passes on the two valid users and warns. */
  lemma FixtureFiltered(others: map<string, string>)
    ensures RenderHoc(HocProps([User1, User2, User3], others)) == HocRender(HocProps([User1, User2], others), true)
  {
    FixtureValidated();
  }
}
