// The user model: its role enumeration with the `is_*` role tests, the
// phone-number field rule, and the one-account-per-platform constraint on
// linked social media accounts.

module Accounts {
  import opened Text
  import opened Seqs

  type UserId = nat

  /** `User.USER_ROLES`. */
  datatype Role = Customer | Admin | Moderator | WarehouseManager

  /** The authenticated caller of a request: its primary key, role and active flag. */
  datatype User = User(id: UserId, role: Role, isActive: bool)

  predicate IsCustomer(u: User) { u.role == Customer }
  predicate IsAdmin(u: User) { u.role == Admin }
  predicate IsModerator(u: User) { u.role == Moderator }
  predicate IsWarehouseManager(u: User) { u.role == WarehouseManager }

  /** The `role` column's default. */
  function DefaultRole(): (r: Role)
    ensures r == Customer
    ensures forall u: User :: u.role == r ==> IsCustomer(u) && !IsAdmin(u) && !IsModerator(u) && !IsWarehouseManager(u)
  {
    Customer
  }

  /** Every user answers true to exactly one of the four role tests. */
  lemma ExactlyOneRole(u: User)
    ensures IsCustomer(u) || IsAdmin(u) || IsModerator(u) || IsWarehouseManager(u)
    ensures !(IsCustomer(u) && IsAdmin(u)) && !(IsCustomer(u) && IsModerator(u))
    ensures !(IsCustomer(u) && IsWarehouseManager(u)) && !(IsAdmin(u) && IsModerator(u))
    ensures !(IsAdmin(u) && IsWarehouseManager(u)) && !(IsModerator(u) && IsWarehouseManager(u))
  {
  }

  // ---------------------------------------------------------------------
  // Phone number: `RegexValidator(r'^\+?1?\d{9,15}$')` on a CharField with
  // `max_length=17, blank=True`.

  /** `\d{9,15}` covering all of `t` (ASCII digits). */
  predicate DigitRun(t: string) { 9 <= |t| <= 15 && AllDigits(t) }

  /**
   * `\+?1?\d{9,15}` against the whole of `s`, tried as the regex engine
   * tries it: the optional '+' is taken when present, then the optional '1'
   * is taken first and given back if the digits that follow do not fit.
   */
  predicate PhoneBody(s: string) {
    var t := if |s| > 0 && s[0] == '+' then s[1..] else s;
    (|t| > 0 && t[0] == '1' && DigitRun(t[1..])) || DigitRun(t)
  }

  /** One way of splitting `s` as an optional '+', an optional '1' and the digit run. */
  predicate PhoneShape(s: string, plus: bool, one: bool) {
    var p := if plus then 1 else 0;
    var o := if one then 1 else 0;
    p + o <= |s| && (plus ==> s[0] == '+') && (one ==> s[p] == '1') && DigitRun(s[p + o..])
  }

  /** `s` splits as the pattern says, in some way. */
  predicate PhoneSplits(s: string) {
    exists plus, one :: PhoneShape(s, plus, one)
  }

  /** The matcher accepts exactly the strings that split as the pattern says. */
  lemma PhoneBodyIffShape(s: string)
    ensures PhoneBody(s) <==> PhoneSplits(s)
  {
    var plus := |s| > 0 && s[0] == '+';
    var t := if plus then s[1..] else s;
    if PhoneBody(s) {
      if |t| > 0 && t[0] == '1' && DigitRun(t[1..]) {
        assert PhoneShape(s, plus, true);
      } else {
        assert PhoneShape(s, plus, false);
      }
    }
    if PhoneSplits(s) {
      var p, o :| PhoneShape(s, p, o);
      // A leading '+' can be matched by neither '1' nor a digit.
      assert p == plus;
      assert t == s[if p then 1 else 0..];
      if o {
        assert t[1..] == s[(if p then 1 else 0) + 1..];
      }
    }
  }

  /**
   * `re.search('^\+?1?\d{9,15}$', s)`: Python's `$` also matches just before
   * a newline that ends the string, so one trailing "\n" is let through.
   */
  predicate PhonePatternAccepts(s: string) {
    PhoneBody(s) || (|s| > 0 && s[|s| - 1] == '\n' && PhoneBody(s[..|s| - 1]))
  }

  /** The field's validation: blank is allowed; otherwise at most 17 characters and the pattern. */
  predicate PhoneNumberValid(s: string) {
    s == [] || (|s| <= 17 && PhonePatternAccepts(s))
  }

  /**
   * A stored phone number is blank, or an optional '+', an optional '1' and
   * 9 to 15 digits, possibly followed by one newline; the 17-character limit
   * never rejects a number that has no trailing newline.
   */
  lemma PhoneNumberValidMeans(s: string)
    ensures PhoneNumberValid(s) ==>
      s == [] || PhoneSplits(s) || (s[|s| - 1] == '\n' && PhoneSplits(s[..|s| - 1]))
    ensures PhoneSplits(s) ==> |s| <= 17 && PhoneNumberValid(s)
  {
    PhoneBodyIffShape(s);
    if |s| > 0 {
      PhoneBodyIffShape(s[..|s| - 1]);
    }
    if PhoneSplits(s) {
      var plus, one :| PhoneShape(s, plus, one);
      assert |s| == (if plus then 1 else 0) + (if one then 1 else 0) + |s[(if plus then 1 else 0) + (if one then 1 else 0)..]|;
    }
  }

  /** The trailing-newline case is real: nine digits and a newline pass validation. */
  lemma PhoneTrailingNewlineAccepted()
    ensures PhoneNumberValid("123456789\n")
    ensures !PhoneBody("123456789\n")
  {
    var s := "123456789\n";
    assert s[..|s| - 1] == "123456789";
    assert DigitRun("123456789");
    assert !IsDigit(s[9]);
  }

  // ---------------------------------------------------------------------
  // SocialMediaAccount: `unique_together = ('user', 'platform')`.

  datatype Platform = Facebook | Google | Twitter | Instagram

  datatype SocialAccount = SocialAccount(user: UserId, platform: Platform, socialId: string)

  predicate OnePerPlatform(accounts: seq<SocialAccount>) {
    forall i, j :: 0 <= i < j < |accounts| ==>
      (accounts[i].user, accounts[i].platform) != (accounts[j].user, accounts[j].platform)
  }

  predicate HasLink(accounts: seq<SocialAccount>, user: UserId, platform: Platform) {
    exists i :: 0 <= i < |accounts| && accounts[i].user == user && accounts[i].platform == platform
  }

  /** Inserting a row: the database refuses a second account for the same user and platform. */
  function InsertSocialAccount(accounts: seq<SocialAccount>, a: SocialAccount): (r: Option<seq<SocialAccount>>)
    ensures r.None? <==> HasLink(accounts, a.user, a.platform)
    ensures r.Some? ==> r.value == accounts + [a]
    ensures r.Some? && OnePerPlatform(accounts) ==> OnePerPlatform(r.value)
  {
    if HasLink(accounts, a.user, a.platform) then None
    else
      var next := accounts + [a];
      assert forall i :: 0 <= i < |accounts| ==> next[i] == accounts[i];
      Some(next)
  }
}
