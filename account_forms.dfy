/** Pieces shared by the company and admin profile pages (`pages/company/Profile.jsx`,
    `pages/admin/Profile.jsx`): the avatar initials, the name/email form taken from the
    signed-in user, the two password validators and the `PUT /auth/update` bodies. */
module AccountForms {
  import opened Text
  import opened Net

  /** `w[0]`, where the missing first character of an empty word joins as nothing. */
  function FirstChar(w: string): (r: string)
    ensures |r| <= 1 && (w == "" <==> r == "") && (w != "" ==> r == [w[0]])
  {
    if w == "" then "" else [w[0]]
  }

  function FirstChars(words: seq<string>): (r: seq<string>)
    ensures |r| == |words| && forall k :: 0 <= k < |words| ==> r[k] == FirstChar(words[k])
  {
    if words == [] then [] else [FirstChar(words[0])] + FirstChars(words[1..])
  }

  /** Joining with no separator strings of at most one character each. */
  lemma {:induction false} JoinShort(xs: seq<string>)
    requires forall k :: 0 <= k < |xs| ==> |xs[k]| <= 1
    ensures |Join(xs, "")| <= |xs|
    decreases |xs|
  {
    if |xs| > 1 {
      JoinShort(xs[1..]);
    }
  }

  /** The avatar text: the first characters of the first two space-separated words of the
      name (or of `fallback` when the name is empty), upper-cased. */
  function Initials(name: string, fallback: string): (r: string)
    ensures |r| <= 2
  {
    var words := Split(OrElse(name, fallback), " ");
    var firstTwo := FirstChars(words)[..if |words| < 2 then |words| else 2];
    JoinShort(firstTwo);
    ToUpper(Join(firstTwo, ""))
  }

  /** A name of one word gives its upper-cased first character. */
  lemma InitialsOneWord(w: string, fallback: string)
    requires w != "" && ' ' !in w
    ensures Initials(w, fallback) == ToUpper([w[0]])
  {
    SplitWithout(w, ' ');
  }

  /** A one-letter fallback shows as that letter, upper-cased, when the name is empty. */
  lemma InitialsOfLetter(c: char)
    requires c != ' '
    ensures Initials("", [c]) == [UpperChar(c)]
  {
    InitialsOneWord([c], [c]);
    assert ToUpper([c])[0] == UpperChar(c);
  }

  /** The initials of a name are those of its first word and of the word after the first
      space. */
  lemma InitialsTwoWords(a: string, b: string, fallback: string)
    requires ' ' !in a
    ensures Initials(a + " " + b, fallback) == ToUpper(FirstChar(a) + FirstChar(Head(b, ' ')))
  {
    SplitAtFirst(a, ' ', b);
    assert a + " " + b == a + [' '] + b;
    var words := Split(a + " " + b, " ");
    assert words == [a] + Split(b, " ");
    assert OrElse(a + " " + b, fallback) == a + " " + b;
    assert Head(b, ' ') == Split(b, " ")[0];
    var two := FirstChars(words)[..2];
    assert two == [FirstChar(a), FirstChar(Head(b, ' '))];
    assert two[1..] == [FirstChar(Head(b, ' '))];
    assert Join(two, "") == FirstChar(a) + "" + FirstChar(Head(b, ' '));
  }

  /** A double space makes an empty second word: it adds no letter but takes the second
      slot, so the word after it is not used. */
  lemma InitialsDoubleSpace(a: string, b: string, fallback: string)
    requires ' ' !in a
    ensures Initials(a + "  " + b, fallback) == ToUpper(FirstChar(a))
  {
    assert a + "  " + b == a + " " + (" " + b);
    InitialsTwoWords(a, " " + b, fallback);
    HeadAt("", ' ', b);
    assert "" + [' '] + b == " " + b;
    assert FirstChar(a) + "" == FirstChar(a);
  }

  /** An empty name shows the fallback's initials. */
  lemma InitialsFallback(fallback: string)
    ensures Initials("", fallback) == Initials(fallback, fallback)
  {
  }

  /** The name/email form as the page shows it for the signed-in user. */
  datatype NameForm = NameForm(name: string, email: string)

  function FormOf(user: Option<User>): (f: NameForm)
    ensures user.None? ==> f == NameForm("", "")
    ensures user.Some? ==> f == NameForm(user.value.name, user.value.email)
  {
    if user.Some? then NameForm(OrElse(user.value.name, ""), OrElse(user.value.email, "")) else NameForm("", "")
  }

  datatype PasswordFields = PasswordFields(currentPassword: string, newPassword: string, confirmPassword: string)

  const EmptyPasswords := PasswordFields("", "", "")
  const RequiredError := "New password is required"
  const MismatchError := "New passwords do not match"

  /** The company page's check: a mismatch matters only when a new password is typed. */
  function CompanyPasswordError(p: PasswordFields): (e: Option<string>)
    ensures e.Some? <==> p.newPassword != "" && p.newPassword != p.confirmPassword
    ensures e.Some? ==> e.value == MismatchError
  {
    if p.newPassword != "" && p.newPassword != p.confirmPassword then Some(MismatchError) else None
  }

  /** The admin page's check: an empty new password is refused first, then a mismatch. */
  function AdminPasswordError(p: PasswordFields): (e: Option<string>)
    ensures e == Some(RequiredError) <==> p.newPassword == ""
    ensures e == Some(MismatchError) <==> p.newPassword != "" && p.newPassword != p.confirmPassword
    ensures e.None? <==> p.newPassword != "" && p.newPassword == p.confirmPassword
  {
    if p.newPassword == "" then Some(RequiredError)
    else if p.newPassword != p.confirmPassword then Some(MismatchError)
    else None
  }

  /** The admin check refuses everything the company check refuses, with the same message,
      and also the empty new password, which the company page treats as "keep the current
      one". */
  lemma AdminStricter(p: PasswordFields)
    ensures CompanyPasswordError(p).Some? ==> AdminPasswordError(p) == CompanyPasswordError(p)
    ensures AdminPasswordError(p).None? ==> CompanyPasswordError(p).None?
    ensures CompanyPasswordError(p).None? && AdminPasswordError(p).Some? <==> p.newPassword == ""
  {
  }

  /** The company save body: always the name, never the email, and the password pair
      exactly when a new password is typed. */
  function CompanyPayload(name: string, p: PasswordFields): (u: UpdatePayload)
    ensures u.name == Some(name) && u.email.None?
    ensures u.currentPassword.Some? <==> p.newPassword != ""
    ensures u.newPassword.Some? <==> p.newPassword != ""
    ensures p.newPassword != "" ==> u.currentPassword == Some(p.currentPassword) && u.newPassword == Some(p.newPassword)
  {
    if p.newPassword != "" then UpdatePayload(Some(name), None, Some(p.currentPassword), Some(p.newPassword))
    else UpdatePayload(Some(name), None, None, None)
  }

  /** The body of a password-only update. */
  function PasswordPayload(p: PasswordFields): (u: UpdatePayload)
    ensures u.name.None? && u.email.None?
    ensures u.currentPassword == Some(p.currentPassword) && u.newPassword == Some(p.newPassword)
  {
    UpdatePayload(None, None, Some(p.currentPassword), Some(p.newPassword))
  }

  /** With a new password typed, the company body is the password body plus the name. */
  lemma CompanyPayloadExtends(name: string, p: PasswordFields)
    requires p.newPassword != ""
    ensures CompanyPayload(name, p) == PasswordPayload(p).(name := Some(name))
  {
  }
}
