/** The registration form: name and email are trimmed, the password is taken
    as typed; the inputs are validated, an email already on file is refused,
    and one user row is inserted. The email syntax check and the password
    hash are functions the caller supplies. */
module Registration {
  import opened Db
  import opened Text

  /** The validation condition, on the trimmed name and email. `|password|`
      counts characters where strlen counts bytes. */
  predicate InputsValid(fullName: string, email: string, password: string, confirmPassword: string,
                        validEmail: string -> bool)
  {
    && !Empty(fullName) && !Empty(email) && !Empty(password) && !Empty(confirmPassword)
    && password == confirmPassword
    && validEmail(email)
    && |password| >= 6
  }

  /** The ids the e-mail lookup query returns: the users registered under `email`. */
  function UsersWithEmail(users: map<int, User>, email: string): set<int>
  {
    set u | u in users && users[u].email == email
  }

  /** With emails unique, `rowCount() == 1` holds exactly when the email is
      already registered. */
  lemma RowCountMeansTaken(users: map<int, User>, email: string)
    requires UniqueEmails(users)
    ensures |UsersWithEmail(users, email)| == 1 <==> exists u :: u in users && users[u].email == email
  {
    var ids := UsersWithEmail(users, email);
    if exists u :: u in users && users[u].email == email {
      var u :| u in users && users[u].email == email;
      forall v | v in ids
        ensures v == u
      {
      }
      assert ids == {u};
    }
  }

  /** POST of the registration form. */
  method Register(st: Store, fullName: string, email: string, password: string, confirmPassword: string,
                  validEmail: string -> bool, hash: string -> string) returns (r: Result<int>)
    requires st.Valid()
    modifies st`users, st`nextUserId
    ensures st.Valid()
    ensures !InputsValid(Trim(fullName), Trim(email), password, confirmPassword, validEmail) ==>
              r == Err(InvalidInput)
    ensures InputsValid(Trim(fullName), Trim(email), password, confirmPassword, validEmail)
            && (exists u :: u in old(st.users) && old(st.users)[u].email == Trim(email)) ==>
              r == Err(DuplicateEmail)
    ensures r.Ok? <==>
              InputsValid(Trim(fullName), Trim(email), password, confirmPassword, validEmail)
              && forall u :: u in old(st.users) ==> old(st.users)[u].email != Trim(email)
    // no row on any rejection path
    ensures !r.Ok? ==> st.users == old(st.users) && st.nextUserId == old(st.nextUserId)
    ensures r.Ok? ==>
              r.value == old(st.nextUserId) && r.value !in old(st.users)
              && st.users == old(st.users)[r.value := User(Trim(fullName), Trim(email), hash(password))]
              && st.nextUserId == r.value + 1
  {
    var name, mail := Trim(fullName), Trim(email);
    if !InputsValid(name, mail, password, confirmPassword, validEmail) {
      return Err(InvalidInput);
    }
    RowCountMeansTaken(st.users, mail);
    if |UsersWithEmail(st.users, mail)| == 1 {
      return Err(DuplicateEmail);
    }
    var id := st.nextUserId;
    st.users := st.users[id := User(name, mail, hash(password))];
    st.nextUserId := id + 1;
    r := Ok(id);
  }

  /** Registering the same email twice: the second attempt is refused and adds
      no row. */
  method RegisterTwice(st: Store, fullName: string, email: string, password: string,
                       validEmail: string -> bool, hash: string -> string)
    returns (first: Result<int>, second: Result<int>)
    requires st.Valid()
    modifies st`users, st`nextUserId
    ensures st.Valid()
    ensures first.Ok? ==> second == Err(DuplicateEmail)
    ensures first.Ok? ==> st.users == old(st.users)[first.value := User(Trim(fullName), Trim(email), hash(password))]
  {
    first := Register(st, fullName, email, password, password, validEmail, hash);
    if first.Ok? {
      assert st.users[first.value].email == Trim(email);
    }
    second := Register(st, fullName, email, password, password, validEmail, hash);
  }
}
