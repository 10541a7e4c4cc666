/**
 * The user list page: a table of users to which the record built by the
 * add-user form is appended, once, when it arrives in the `newUser` query
 * parameter.
 */
module UserList {
  import opened Wrappers
  import UserAdd

  /** A row of the table. `gender` is carried over from the parsed record by the object spread. */
  datatype User = User(
    key: string, name: string, age: int, gender: Option<string>,
    address: Option<string>, tags: Option<seq<string>>, status: Option<string>)

  /** The record `JSON.parse` yields from the `newUser` parameter (every field but `key`). */
  datatype ParsedUser = ParsedUser(
    name: string, age: int, gender: Option<string>,
    address: Option<string>, tags: Option<seq<string>>, status: Option<string>)

  // ---------------------------------------------------------------------------
  // `String(Date.now())`
  // ---------------------------------------------------------------------------

  predicate IsDigit(c: char) {
    '0' <= c <= '9'
  }

  function DigitChar(d: nat): (c: char)
    requires d < 10
    ensures IsDigit(c)
  {
    ('0' as int + d) as char
  }

  /** `String(n)` for a non-negative integer: its decimal digits, without leading zeros. */
  function NatToDecimal(n: nat): (s: string)
    ensures |s| >= 1 && forall i :: 0 <= i < |s| ==> IsDigit(s[i])
    ensures |s| > 1 ==> s[0] != '0'
    decreases n
  {
    if n < 10 then [DigitChar(n)] else NatToDecimal(n / 10) + [DigitChar(n % 10)]
  }

  /** The number a string of decimal digits denotes. */
  function DecimalValue(s: string): nat
    requires forall i :: 0 <= i < |s| ==> IsDigit(s[i])
  {
    if s == [] then 0
    else
      assert IsDigit(s[|s| - 1]);
      DecimalValue(s[..|s| - 1]) * 10 + (s[|s| - 1] as int - '0' as int)
  }

  /** Reading the decimal string back gives the timestamp. */
  lemma {:induction false} DecimalRoundTrip(n: nat)
    ensures DecimalValue(NatToDecimal(n)) == n
    decreases n
  {
    if n >= 10 {
      DecimalRoundTrip(n / 10);
      var s := NatToDecimal(n);
      assert s[..|s| - 1] == NatToDecimal(n / 10);
    }
  }

  /** Distinct timestamps give distinct keys. */
  lemma DistinctTimestampsDistinctKeys(a: nat, b: nat)
    ensures a != b ==> NatToDecimal(a) != NatToDecimal(b)
  {
    DecimalRoundTrip(a);
    DecimalRoundTrip(b);
  }

  // ---------------------------------------------------------------------------
  // The new-user effect
  // ---------------------------------------------------------------------------

  const DefaultAddress: string := UserAdd.DefaultAddress
  const NewUserTag: string := UserAdd.NewUserTag
  const ActiveStatus: string := UserAdd.ActiveStatus

  /** `newUserWithKey`: the parsed record with a key from `now` and the `||` defaults filled in. */
  function WithKey(parsed: ParsedUser, now: nat): (u: User)
    ensures u.name == parsed.name && u.age == parsed.age && u.gender == parsed.gender
    ensures u.key == NatToDecimal(now)
    ensures u.address == if Present(parsed.address) then parsed.address else Some(DefaultAddress)
    ensures u.tags == if parsed.tags.Some? then parsed.tags else Some([NewUserTag])
    ensures u.status == if Present(parsed.status) then parsed.status else Some(ActiveStatus)
  {
    User(
      NatToDecimal(now), parsed.name, parsed.age, parsed.gender,
      if Present(parsed.address) then parsed.address else Some(DefaultAddress),
      if parsed.tags.Some? then parsed.tags else Some([NewUserTag]),
      if Present(parsed.status) then parsed.status else Some(ActiveStatus))
  }

  /** The add form's record as it comes out of `JSON.parse(JSON.stringify(...))`. */
  function Transported(d: UserAdd.NewUserData): ParsedUser {
    ParsedUser(d.name, d.age, Some(d.gender), Some(d.address), Some(d.tags), Some(d.status))
  }

  /** A record built by the add form reaches the table unchanged, apart from the added key. */
  lemma AddedUserArrivesUnchanged(values: UserAdd.FormValues, now: nat)
    requires UserAdd.Validates(values)
    ensures var d := UserAdd.OnFinish(values);
            WithKey(Transported(d), now) ==
              User(NatToDecimal(now), d.name, d.age, Some(d.gender), Some(d.address), Some(d.tags), Some(d.status))
  {
  }

  /** The page's state: the table rows and the `newUser` parameter of the current URL. */
  class UserListPage {
    var users: seq<User>
    /** `new URLSearchParams(location.search).get('newUser')`. */
    var newUserParam: Option<string>

    constructor (initial: seq<User>, newUserParam: Option<string>)
      ensures users == initial && this.newUserParam == newUserParam
    {
      users := initial;
      this.newUserParam := newUserParam;
    }

    /**
     * The `useEffect` on `location.search`. `parsed` is what `JSON.parse` makes
     * of the parameter (None when it throws) and `now` is `Date.now()`.
     */
    method OnSearchChange(parsed: Option<ParsedUser>, now: nat)
      modifies this
      ensures !Present(old(newUserParam)) || parsed.None? ==>
                users == old(users) && newUserParam == old(newUserParam)
      ensures Present(old(newUserParam)) && parsed.Some? ==>
                users == old(users) + [WithKey(parsed.value, now)] && newUserParam == None
      ensures |users| <= |old(users)| + 1 && users[..|old(users)|] == old(users)
    {
      var newUserStr := newUserParam;
      if Present(newUserStr) {
        if parsed.Some? {
          var newUserWithKey := WithKey(parsed.value, now);
          users := users + [newUserWithKey];
          newUserParam := None;
        }
      }
    }
  }
}
