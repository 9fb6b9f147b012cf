/**
 * The desired-access record (`User` in user.py): an e-mail that identifies
 * the Ego account, an optional display name, and whether the user should
 * hold DACO access and cloud access.
 */
module DacoUser {
  import opened Wrappers
  import opened Text

  datatype User = User(email: string, name: Option<string>, hasDaco: bool, hasCloud: bool)

  /** `invalid_email()`: `email.find('@') == -1`. */
  predicate InvalidEmail(u: User)
  {
    Find(u.email, '@') == -1
  }

  /** The e-mail is invalid exactly when it has no '@' at all; any '@'
      anywhere makes it pass (the docstring's "False if the email is
      invalid" has the polarity backwards). */
  lemma InvalidEmailMeansNoAt(u: User)
    ensures InvalidEmail(u) <==> '@' !in u.email
    ensures !InvalidEmail(u) <==> exists i :: 0 <= i < |u.email| && u.email[i] == '@'
  {
  }

  /** `is_invalid()`: cloud access requested without DACO access. */
  predicate IsInvalid(u: User)
  {
    u.hasCloud && !u.hasDaco
  }

  /** `__eq__`: the four attributes pairwise equal. */
  predicate SameUser(a: User, b: User)
  {
    a.name == b.name && a.email == b.email && a.hasDaco == b.hasDaco && a.hasCloud == b.hasCloud
  }

  /** `__eq__` is value equality of the record, hence reflexive, symmetric
      and transitive. */
  lemma SameUserIsValueEquality(a: User, b: User, c: User)
    ensures SameUser(a, b) <==> a == b
    ensures SameUser(a, a)
    ensures SameUser(a, b) ==> SameUser(b, a)
    ensures SameUser(a, b) && SameUser(b, c) ==> SameUser(a, c)
  {
  }

  /** `str(name)`: Python renders a missing name as "None". */
  function NameText(name: Option<string>): string
  {
    match name
    case None => "None"
    case Some(n) => n
  }

  /** `__str__`: `email(name)`. */
  function ToStr(u: User): string
  {
    u.email + "(" + NameText(u.name) + ")"
  }

  /** The rendering can be read back: the e-mail is its prefix, followed by
      an opening parenthesis, the name text and a closing parenthesis; a
      placeholder user with no name shows "None". */
  lemma ToStrParts(u: User)
    ensures |ToStr(u)| == |u.email| + |NameText(u.name)| + 2
    ensures ToStr(u)[..|u.email|] == u.email
    ensures ToStr(u)[|u.email|] == '('
    ensures ToStr(u)[|u.email| + 1..|ToStr(u)| - 1] == NameText(u.name)
    ensures ToStr(u)[|ToStr(u)| - 1] == ')'
    ensures u.name == None ==> ToStr(u) == u.email + "(None)"
  {
    var s := ToStr(u);
    assert s == u.email + ("(" + NameText(u.name) + ")");
  }
}
