/** The user entity's role set and its textual form. */
module UserModel {
  import opened Wrappers
  import opened Sequences
  import opened Text

  datatype Role = USER | ADMIN

  /** java.util.Date, by its milliseconds since the epoch. */
  datatype Date = Date(millis: int)

  /** How string concatenation prints a possibly null Integer. */
  function IdText(id: Option<int>): (s: string)
    ensures '[' !in s
  {
    if id.Some? then IntToString(id.value) else "null"
  }

  /** How string concatenation prints a possibly null String. */
  function EmailText(email: Option<string>): string {
    if email.Some? then email.value else "null"
  }

  /** `"User:" + id + '[' + email + ']'`. */
  function Describe(id: Option<int>, email: Option<string>): string {
    "User:" + IdText(id) + "[" + EmailText(email) + "]"
  }

  /**
   * Reads back the id and the printed e-mail from a user's text: the id is what lies between
   * "User:" and the first '[', the e-mail what lies between that '[' and the closing ']'.
   */
  function ParseDescription(s: string): (r: Option<(Option<int>, string)>)
    ensures r.Some? ==> "User:" <= s
  {
    if !(|s| >= 5 && s[..5] == "User:") then None
    else
      var t := s[5..];
      if !('[' in t && t[|t| - 1] == ']') then None
      else
        var open := IndexOf(t, '[');
        if open + 1 > |t| - 1 then None
        else
          var idText, email := t[..open], t[open + 1..|t| - 1];
          if idText == "null" then Some((None, email))
          else if IsIntText(idText) then Some((Some(ParseInt(idText)), email))
          else None
  }

  /** In `it + "[" + e + "]"` with no '[' in `it`, the first '[' follows `it` and the rest up to the last character is `e`. */
  lemma SplitAtBracket(it: string, e: string)
    requires '[' !in it
    ensures var t := it + "[" + e + "]";
            && '[' in t && t[|t| - 1] == ']'
            && IndexOf(t, '[') == |it| && t[..|it|] == it && t[|it| + 1..|t| - 1] == e
  {
    var t := it + "[" + e + "]";
    assert t[|it|] == '[';
    assert forall j :: 0 <= j < |it| ==> t[j] == it[j];
    assert t[..|it|] == it;
    assert t[|it| + 1..|t| - 1] == e;
  }

  /** The text of a user determines its id, and its e-mail as printed. */
  lemma DescribeParses(id: Option<int>, email: Option<string>)
    ensures ParseDescription(Describe(id, email)) == Some((id, EmailText(email)))
  {
    var s := Describe(id, email);
    var it := IdText(id);
    assert s[..5] == "User:";
    assert s[5..] == it + "[" + EmailText(email) + "]";
    SplitAtBracket(it, EmailText(email));
    if id.Some? {
      IntToStringRoundTrip(id.value);
      assert it != "null" by { assert IsDigit(it[0]) || it[0] == '-'; }
    }
  }

  /** A user: the entity's identity, name and e-mail, and the account state this layer reads. */
  class User {
    var id: Option<int>
    var name: Option<string>
    var email: Option<string>
    var lastName: Option<string>
    var enabled: bool
    var registered: Date
    var roles: set<Role>

    /** The full constructor: every field as given, the roles through `setRoles`. */
    constructor (id: Option<int>, name: Option<string>, email: Option<string>, lastName: Option<string>,
                 enabled: bool, registered: Date, roles: multiset<Role>)
      ensures this.id == id && this.name == name && this.email == email && this.lastName == lastName
      ensures this.enabled == enabled && this.registered == registered
      ensures this.roles == set r | r in roles
    {
      this.id := id;
      this.name := name;
      this.email := email;
      this.lastName := lastName;
      this.enabled := enabled;
      this.registered := registered;
      this.roles := {};
      new;
      SetRoles(roles);
    }

    /** The constructor taking the roles as varargs: the account is enabled and registered `now`. */
    constructor WithRoles(id: Option<int>, name: Option<string>, email: Option<string>, lastName: Option<string>,
                          now: Date, roles: seq<Role>)
      ensures this.id == id && this.name == name && this.email == email && this.lastName == lastName
      ensures this.enabled && this.registered == now
      ensures this.roles == set r | r in roles
    {
      this.id := id;
      this.name := name;
      this.email := email;
      this.lastName := lastName;
      this.enabled := true;
      this.registered := now;
      this.roles := {};
      new;
      SetRoles(multiset(roles));
    }

    /** The copy constructor: every field of `u`, the roles copied into a set of their own. */
    constructor Copy(u: User)
      ensures id == u.id && name == u.name && email == u.email && lastName == u.lastName
      ensures enabled == u.enabled && registered == u.registered && roles == u.roles
    {
      id := u.id;
      name := u.name;
      email := u.email;
      lastName := u.lastName;
      enabled := u.enabled;
      registered := u.registered;
      roles := {};
      new;
      SetRoles(multiset(u.roles));
      assert roles == u.roles by {
        forall r ensures r in roles <==> r in u.roles {
          assert r in multiset(u.roles) <==> r in u.roles;
        }
      }
    }

    /**
     * `setRoles`: an empty collection gives the empty set, any other its distinct elements;
     * afterwards `hasRole` holds exactly for the roles in the collection.
     */
    method SetRoles(rs: multiset<Role>)
      modifies this`roles
      ensures roles == set r | r in rs
      ensures |rs| == 0 ==> roles == {}
      ensures forall r :: HasRole(r) <==> r in rs
    {
      roles := if |rs| == 0 then {} else set r | r in rs;
    }

    /** `hasRole`. */
    function HasRole(role: Role): (b: bool)
      reads this`roles
      ensures b <==> role in roles
    {
      role in roles
    }

    /** `toString`: the id and the e-mail, from which both can be read back. */
    function ToString(): (s: string)
      reads this`id, this`email
      ensures s == Describe(id, email)
      ensures ParseDescription(s) == Some((id, EmailText(email)))
    {
      DescribeParses(id, email);
      Describe(id, email)
    }
  }
}
