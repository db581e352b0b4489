/**
 * The credential sheet of app.py: a worksheet whose rows hold an email
 * address in column 1 and a bcrypt hash in column 2. The app reads it with
 * `find` and `cell`, and writes it with `append_row` (registration) and
 * `update_cell` (password reset). Here the sheet is a sequence of rows and
 * a cell position is a 0-based row index.
 */
module CredentialStore {
  import opened Wrappers

  datatype Row = Row(email: string, hash: string)

  /** Some row of the sheet holds `email` in its email column. */
  predicate Registered(rows: seq<Row>, email: string)
  {
    exists i :: 0 <= i < |rows| && rows[i].email == email
  }

  /** No email address occupies two rows. */
  predicate UniqueEmails(rows: seq<Row>)
  {
    forall i, j :: 0 <= i < j < |rows| ==> rows[i].email != rows[j].email
  }

  /**
   * `sheet.find(email)`: the first row, top to bottom, whose email column
   * holds `email`, or None when there is none.
   */
  function Lookup(rows: seq<Row>, email: string): (r: Option<nat>)
    ensures r.None? <==> !Registered(rows, email)
    ensures r.Some? ==> r.value < |rows| && rows[r.value].email == email
    ensures r.Some? ==> forall j :: 0 <= j < r.value ==> rows[j].email != email
  {
    if |rows| == 0 then None
    else if rows[0].email == email then Some(0)
    else match Lookup(rows[1..], email)
      case None => None
      case Some(k) => Some(k + 1)
  }

  /** `sheet.update_cell(row, 2, hash)`: the hash column of one row is rewritten. */
  function SetHash(rows: seq<Row>, i: nat, hash: string): (r: seq<Row>)
    requires i < |rows|
    ensures |r| == |rows|
    ensures r[i] == Row(rows[i].email, hash)
    ensures forall j :: 0 <= j < |rows| && j != i ==> r[j] == rows[j]
  {
    rows[i := Row(rows[i].email, hash)]
  }

  /** The stored hash of a registered user: column 2 of the row `find` returns. */
  function StoredHash(rows: seq<Row>, email: string): (h: string)
    requires Registered(rows, email)
    ensures exists i :: 0 <= i < |rows| && rows[i] == Row(email, h)
                        && forall j :: 0 <= j < i ==> rows[j].email != email
  {
    var i := Lookup(rows, email).value;
    assert rows[i] == Row(email, rows[i].hash);
    rows[i].hash
  }

  /**
   * The two bcrypt entry points app.py uses: `hashpw(password, salt)` and
   * `checkpw(password, hashed)`. The library is not part of this model; the
   * laws it is relied on for are stated separately as predicates.
   */
  datatype Bcrypt = Bcrypt(hashPw: (string, string) -> string, checkPw: (string, string) -> bool)

  /** `checkpw` accepts a password against any hash made from it. */
  ghost predicate Verifies(bc: Bcrypt)
  {
    forall password, salt :: bc.checkPw(password, bc.hashPw(password, salt))
  }

  /** `checkpw` rejects every other password (an idealisation: no collisions). */
  ghost predicate Rejects(bc: Bcrypt)
  {
    forall password, other, salt ::
      other != password ==> !bc.checkPw(other, bc.hashPw(password, salt))
  }

  /** Appending a row for a new email makes that row the one `find` returns. */
  lemma {:induction false} LookupAppendNew(rows: seq<Row>, email: string, hash: string)
    requires !Registered(rows, email)
    ensures Lookup(rows + [Row(email, hash)], email) == Some(|rows|)
  {
    if |rows| > 0 {
      assert (rows + [Row(email, hash)])[1..] == rows[1..] + [Row(email, hash)];
      LookupAppendNew(rows[1..], email, hash);
    }
  }

  /** Appending a row leaves the lookup of every email already present as it was. */
  lemma {:induction false} LookupAppendOther(rows: seq<Row>, row: Row, email: string)
    requires Registered(rows, email)
    ensures Lookup(rows + [row], email) == Lookup(rows, email)
  {
    if rows[0].email != email {
      assert (rows + [row])[1..] == rows[1..] + [row];
      LookupAppendOther(rows[1..], row, email);
    }
  }

  /** Rewriting a hash never moves, adds or removes an email: every lookup is unchanged. */
  lemma LookupSetHash(rows: seq<Row>, i: nat, hash: string, email: string)
    requires i < |rows|
    ensures Lookup(SetHash(rows, i, hash), email) == Lookup(rows, email)
  {
  }

  /** Appending only a new email keeps the email column free of duplicates. */
  lemma AppendNewKeepsUnique(rows: seq<Row>, email: string, hash: string)
    requires UniqueEmails(rows) && !Registered(rows, email)
    ensures UniqueEmails(rows + [Row(email, hash)])
  {
  }
}
