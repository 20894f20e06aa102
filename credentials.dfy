/** The credential table (`data/user_credentials.json`), the duplicate check
    and the account-provisioning loop of `/webhook`. */
module Credentials {
  import opened Common
  import opened Submissions

  /** One record of the table, keyed by email. `password` is the bcrypt hash. */
  datatype Account = Account(firstName: Text, lastName: Text, password: string, familyId: string, timestamp: Text)

  /** The state of the JSON file behind the table. */
  datatype CredentialFile = Missing | Corrupt | Table(entries: map<string, Account>)

  /** The table as a Python dict in memory: keys are strings, but the webhook
      loop may also insert the key `None` for a missing slot email. */
  type Credentials = map<Text, Account>

  /** `load_user_credentials`: JSON object keys come back as strings; a missing
      or undecodable file gives the empty dict. */
  function Load(file: CredentialFile): (m: Credentials)
    ensures Null !in m
    ensures forall e :: Str(e) in m <==> file.Table? && e in file.entries
    ensures forall e :: Str(e) in m ==> m[Str(e)] == file.entries[e]
  {
    match file
    case Table(entries) => map e | e in entries :: Str(e) := entries[e]
    case _ => map[]
  }

  /** The JSON object key `json.dump` writes for a dict key. */
  function JsonKey(k: Text): string
  {
    match k
    case Null => "null"
    case Str(s) => s
  }

  /** What `save_user_credentials` leaves in the file: the key `None` becomes
      `"null"`, and its record is the one kept when `"null"` is also a key. */
  function Stored(m: Credentials): (t: map<string, Account>)
    ensures forall e :: e in t <==> Str(e) in m || (e == "null" && Null in m)
    ensures Null in m ==> t["null"] == m[Null]
    ensures forall e :: Str(e) in m && !(e == "null" && Null in m) ==> t[e] == m[Str(e)]
  {
    var keys := (set k | k in m :: JsonKey(k));
    assert forall e :: e in keys && !(e == "null" && Null in m) ==> Str(e) in m by {
      forall e | e in keys && !(e == "null" && Null in m) ensures Str(e) in m {
        var k :| k in m && JsonKey(k) == e;
      }
    }
    map e | e in keys :: if e == "null" && Null in m then m[Null] else m[Str(e)]
  }

  /** Saving and reloading gives the same table back, except that an account
      stored under the key `None` comes back under the string `"null"`. */
  lemma ReloadAfterSave(m: Credentials)
    ensures Null !in m ==> Load(Table(Stored(m))) == m
    ensures Null in m ==> Load(Table(Stored(m))) == (m - {Null})[Str("null") := m[Null]]
  {
    if Null !in m {
      ReloadWithoutNull(m);
    } else {
      ReloadWithNull(m);
    }
  }

  lemma ReloadWithoutNull(m: Credentials)
    requires Null !in m
    ensures Load(Table(Stored(m))) == m
  {
    var back := Load(Table(Stored(m)));
    forall k | k in m ensures k in back && back[k] == m[k] {
      assert k == Str(k.s);
    }
    forall k | k in back ensures k in m {
      assert k == Str(k.s);
    }
  }

  lemma ReloadWithNull(m: Credentials)
    requires Null in m
    ensures Load(Table(Stored(m))) == (m - {Null})[Str("null") := m[Null]]
  {
    var t := Stored(m);
    var back := Load(Table(t));
    var expected := (m - {Null})[Str("null") := m[Null]];
    forall k | k in expected ensures k in back && back[k] == expected[k] {
      if k == Str("null") {
        assert "null" in t && t["null"] == m[Null];
      } else {
        assert k in m && k.Str? && k.s != "null";
        assert k.s in t && t[k.s] == m[Str(k.s)];
        assert k == Str(k.s);
      }
    }
    forall k | k in back ensures k in expected {
      assert k == Str(k.s) && k.s in t;
    }
  }

  // ------------------------------------------------------- duplicate check

  /** The first slot at or after `from` whose email is a key of `creds`. */
  function FirstRegisteredFrom(creds: Credentials, members: Slots, from: nat): (r: Option<nat>)
    requires from <= 4
    ensures r.Some? ==> from <= r.value < 4 && members[r.value].email in creds
    ensures r.Some? ==> forall j :: from <= j < r.value ==> members[j].email !in creds
    ensures r.None? ==> forall j :: from <= j < 4 ==> members[j].email !in creds
    decreases 4 - from
  {
    if from == 4 then None
    else if members[from].email in creds then Some(from)
    else FirstRegisteredFrom(creds, members, from + 1)
  }

  /** The first of `email_1` .. `email_4`, in that order, that is already registered. */
  function FirstRegistered(creds: Credentials, members: Slots): Option<nat>
  {
    FirstRegisteredFrom(creds, members, 0)
  }

  /** `check_existing_emails`: `(False, e)` for the first slot email `e` that is
      a key of the stored table, `(True, None)` when no slot email is. */
  method CheckExistingEmails(file: CredentialFile, members: Slots) returns (ok: bool, existing: Text)
    ensures ok <==> forall i :: 0 <= i < 4 ==> members[i].email !in Load(file)
    ensures ok ==> existing == Null
    ensures !ok ==> exists i :: 0 <= i < 4 && existing == members[i].email && existing in Load(file)
                                && forall j :: 0 <= j < i ==> members[j].email !in Load(file)
    ensures ok == FirstRegistered(Load(file), members).None?
    ensures !ok ==> existing == members[FirstRegistered(Load(file), members).value].email
  {
    var credentials := Load(file);
    for i := 0 to 4
      invariant forall j :: 0 <= j < i ==> members[j].email !in credentials
      invariant FirstRegisteredFrom(credentials, members, i) == FirstRegistered(credentials, members)
    {
      if members[i].email in credentials {
        return false, members[i].email;
      }
    }
    return true, Null;
  }

  // ------------------------------------------------------------ provisioning

  /** The constant plaintext password every new account is given. */
  const DefaultPassword := "random_password"

  /** What one submission gives every account it creates: the family id, the
      submission timestamp and, per slot, the bcrypt hash of `DefaultPassword`
      computed for that slot. */
  datatype Grant = Grant(familyId: string, timestamp: Text, hashes: seq<string>)

  /** The record the webhook creates for slot `i`. */
  function SlotAccount(members: Slots, grant: Grant, i: nat): Account
    requires i < 4 && |grant.hashes| == 4
  {
    Account(members[i].firstName, members[i].lastName, grant.hashes[i], grant.familyId, grant.timestamp)
  }

  /** The table after the webhook loop has handled slots 0 .. k-1: a slot whose
      email is not yet a key adds its record; the table is updated before the
      next slot is tested. */
  function Provisioned(creds: Credentials, members: Slots, grant: Grant, k: nat): (after: Credentials)
    requires k <= 4 && |grant.hashes| == 4
    ensures forall e :: e in creds ==> e in after && after[e] == creds[e]
  {
    if k == 0 then creds
    else
      var before := Provisioned(creds, members, grant, k - 1);
      var e := members[k - 1].email;
      if e in before then before else before[e := SlotAccount(members, grant, k - 1)]
  }

  /** Slot `i` is the lowest-numbered slot carrying email `e`. */
  predicate FirstSlotWith(members: Slots, e: Text, i: nat)
  {
    i < 4 && members[i].email == e && forall j :: 0 <= j < i ==> members[j].email != e
  }

  /** The slot emails among slots 0 .. k-1. */
  function SlotEmails(members: Slots, k: nat): set<Text>
    requires k <= 4
  {
    set i | 0 <= i < k :: members[i].email
  }

  /** After the loop the keys are the old keys plus the slot emails, and a
      new key holds the record of the lowest-numbered slot that carries it: a
      later slot repeating that email does not overwrite it. */
  lemma {:induction false} ProvisionedSpec(creds: Credentials, members: Slots, grant: Grant, k: nat)
    requires k <= 4 && |grant.hashes| == 4
    ensures Provisioned(creds, members, grant, k).Keys == creds.Keys + SlotEmails(members, k)
    ensures forall i :: 0 <= i < k && members[i].email !in creds && FirstSlotWith(members, members[i].email, i) ==>
              Provisioned(creds, members, grant, k)[members[i].email] == SlotAccount(members, grant, i)
  {
    if k > 0 {
      ProvisionedSpec(creds, members, grant, k - 1);
      assert SlotEmails(members, k) == SlotEmails(members, k - 1) + {members[k - 1].email};
    }
  }

  /** The lowest slot carrying a slot email. */
  lemma FirstSlotExists(members: Slots, e: Text) returns (i: nat)
    requires e in SlotEmails(members, 4)
    ensures FirstSlotWith(members, e, i)
  {
    i := 0;
    while members[i].email != e
      invariant i < 4
      invariant forall j :: 0 <= j < i ==> members[j].email != e
      decreases 4 - i
    {
      i := i + 1;
    }
  }

  /** Every account one submission creates carries that submission's family id
      and timestamp, and the hash and names of the lowest slot with its email. */
  lemma NewAccountsShareFamily(creds: Credentials, members: Slots, grant: Grant)
    requires |grant.hashes| == 4
    ensures forall e :: e in Provisioned(creds, members, grant, 4) && e !in creds ==>
      var a := Provisioned(creds, members, grant, 4)[e];
      && a.familyId == grant.familyId
      && a.timestamp == grant.timestamp
      && exists i :: FirstSlotWith(members, e, i) && a == SlotAccount(members, grant, i)
  {
    var after := Provisioned(creds, members, grant, 4);
    ProvisionedSpec(creds, members, grant, 4);
    forall e | e in after && e !in creds
      ensures after[e].familyId == grant.familyId && after[e].timestamp == grant.timestamp
      ensures exists i :: FirstSlotWith(members, e, i) && after[e] == SlotAccount(members, grant, i)
    {
      var i := FirstSlotExists(members, e);
      assert after[e] == SlotAccount(members, grant, i);
    }
  }

  /** The recipients of "new account" emails while handling slots 0 .. k-1:
      one per record inserted, in slot order. */
  function NewRecipients(creds: Credentials, members: Slots, grant: Grant, k: nat): seq<Text>
    requires k <= 4 && |grant.hashes| == 4
  {
    if k == 0 then []
    else
      var e := members[k - 1].email;
      NewRecipients(creds, members, grant, k - 1)
        + (if e in Provisioned(creds, members, grant, k - 1) then [] else [e])
  }

  /** Exactly the newly created accounts are notified. */
  lemma {:induction false} RecipientsAreNewAccounts(creds: Credentials, members: Slots, grant: Grant, k: nat)
    requires k <= 4 && |grant.hashes| == 4
    ensures forall e :: e in NewRecipients(creds, members, grant, k) <==>
                        e in Provisioned(creds, members, grant, k) && e !in creds
  {
    if k > 0 {
      RecipientsAreNewAccounts(creds, members, grant, k - 1);
      ProvisionedSpec(creds, members, grant, k - 1);
      var e := members[k - 1].email;
      if e !in Provisioned(creds, members, grant, k - 1) {
        assert e !in creds;
      }
    }
  }

  /** No element occurs twice. */
  predicate Distinct(s: seq<Text>)
  {
    forall i, j :: 0 <= i < j < |s| ==> s[i] != s[j]
  }

  /** Each new account is notified once. */
  lemma {:induction false} RecipientsAreDistinct(creds: Credentials, members: Slots, grant: Grant, k: nat)
    requires k <= 4 && |grant.hashes| == 4
    ensures Distinct(NewRecipients(creds, members, grant, k))
  {
    if k > 0 {
      RecipientsAreDistinct(creds, members, grant, k - 1);
      RecipientsAreNewAccounts(creds, members, grant, k - 1);
      var earlier := NewRecipients(creds, members, grant, k - 1);
      var e := members[k - 1].email;
      if e !in Provisioned(creds, members, grant, k - 1) {
        assert e !in earlier && Distinct(earlier);
        var r := NewRecipients(creds, members, grant, k);
        assert r == earlier + [e];
        forall i, j | 0 <= i < j < |r| ensures r[i] != r[j] {
          assert r[i] == earlier[i];
          if j < |earlier| {
            assert r[j] == earlier[j];
          }
        }
      } else {
        assert NewRecipients(creds, members, grant, k) == earlier;
      }
    }
  }

  /** After a submission that passed the duplicate check, reloading the saved
      table gives back every earlier account whose email is not `"null"`; when
      no slot email is missing, every earlier account. */
  lemma ReloadKeepsEarlierAccounts(file: CredentialFile, members: Slots, grant: Grant)
    requires |grant.hashes| == 4
    ensures var before := Load(file);
            var after := Load(Table(Stored(Provisioned(before, members, grant, 4))));
            && (forall e :: Str(e) in before && e != "null" ==> Str(e) in after && after[Str(e)] == before[Str(e)])
            && (Null !in SlotEmails(members, 4) ==> forall k :: k in before ==> k in after && after[k] == before[k])
  {
    var before := Load(file);
    var provisioned := Provisioned(before, members, grant, 4);
    ProvisionedSpec(before, members, grant, 4);
    ReloadAfterSave(provisioned);
  }

  /** A submission with a missing slot email creates an account under `None`,
      saved as `"null"`: it replaces whatever account an earlier submission
      left under `"null"`, with the record of the lowest slot whose email is missing. */
  lemma MissingEmailReplacesNullAccount(file: CredentialFile, members: Slots, grant: Grant, i: nat)
    requires |grant.hashes| == 4
    requires FirstSlotWith(members, Null, i)
    ensures var after := Load(Table(Stored(Provisioned(Load(file), members, grant, 4))));
            Str("null") in after && after[Str("null")] == SlotAccount(members, grant, i)
  {
    var provisioned := Provisioned(Load(file), members, grant, 4);
    ProvisionedSpec(Load(file), members, grant, 4);
    assert Null in provisioned && provisioned[Null] == SlotAccount(members, grant, i);
    ReloadAfterSave(provisioned);
  }

  /** Once a submission has been accepted and saved, a later submission that
      repeats any of its non-missing slot emails fails the duplicate check. */
  lemma RegisteredEmailIsRejectedLater(file: CredentialFile, members: Slots, grant: Grant, next: Slots, i: nat)
    requires |grant.hashes| == 4
    requires i < 4 && next[i].email != Null && next[i].email in SlotEmails(members, 4)
    ensures FirstRegistered(Load(Table(Stored(Provisioned(Load(file), members, grant, 4)))), next).Some?
  {
    var provisioned := Provisioned(Load(file), members, grant, 4);
    ProvisionedSpec(Load(file), members, grant, 4);
    ReloadAfterSave(provisioned);
    assert next[i].email in Load(Table(Stored(provisioned)));
  }
}
