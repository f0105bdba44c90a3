/** The pure parts of logging in and registering: which credential table a
    role string selects, what the login handler does with the row the
    credential query returned, and registration's required-field check.
    The credential query itself (email and password compared in SQL) is not
    modelled: its answer is the `firstRow` parameter. */
module Access {
  import opened Records

  /** The three credential tables. */
  datatype Table = Admins | Agents | Users

  /** The columns of a credential row the login handler looks at.  Only the
      `agents` table has a status column; for the other tables `status` is None,
      which JavaScript sees as `undefined`. */
  datatype Account = Account(id: nat, status: Option<string>)

  datatype LoginOutcome =
    | Refused(notice: Notice)
    /** The session now holds this role string and this account, and the
        handler redirects to `/<role>/dashboard`. */
    | SignedIn(role: string, account: Account)

  /** The role string posted with the login form selects the table: `admin`
      and `agent` have their own, every other string falls back to `users`. */
  function LoginTable(role: string): (t: Table)
    ensures t == Admins <==> role == ADMIN
    ensures t == Agents <==> role == AGENT
    ensures t == Users <==> role != ADMIN && role != AGENT
  {
    if role == ADMIN then Admins
    else if role == AGENT then Agents
    else Users
  }

  /** The login handler once the credential query has answered with its first row. */
  function LoginDecision(role: string, firstRow: Option<Account>): (r: LoginOutcome)
    ensures firstRow.None? ==> r == Refused(InvalidCredentials)
    ensures r.SignedIn? <==> firstRow.Some? && (role == AGENT ==> firstRow.value.status == Some(APPROVED))
    ensures role == AGENT && firstRow.Some? && firstRow.value.status != Some(APPROVED) ==> r == Refused(AgentNotApproved)
    ensures r.SignedIn? ==> r.role == role && r.account == firstRow.value
  {
    match firstRow
    case None => Refused(InvalidCredentials)
    case Some(row) =>
      if role == AGENT && row.status != Some(APPROVED) then Refused(AgentNotApproved)
      else SignedIn(role, row)
  }

  /** JavaScript truthiness of a form field: missing (None) and "" are falsy. */
  predicate Filled(field: Option<string>) {
    field.Some? && field.value != ""
  }

  /** The registration handler's check before it inserts the new user. */
  function RegistrationCheck(name: Option<string>, email: Option<string>, phone: Option<string>, password: Option<string>): (r: Option<Notice>)
    ensures r.Some? ==> r.value == AllFieldsRequired
    ensures r.None? <==> name.Some? && name.value != "" && email.Some? && email.value != ""
                         && phone.Some? && phone.value != "" && password.Some? && password.value != ""
  {
    if !Filled(name) || !Filled(email) || !Filled(phone) || !Filled(password) then Some(AllFieldsRequired)
    else None
  }
}
