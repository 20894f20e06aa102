/** The request handlers of the Flask app: `/login`, `/get-meal-plan` and
    `/webhook`, over the credential file, the plan folders and a log of the
    emails sent. */
module Server {
  import opened Common
  import opened Paths
  import opened Submissions
  import opened Credentials
  import opened Prompt
  import opened MealServices

  /** The folder `get_meal_plan` reads from, and `MealPlanSaver`'s default. */
  const PlansRoot := "meal_plans"

  // ------------------------------------------------------------------ login

  /** One element of the `family_members` list of a login reply. */
  datatype MemberEntry = MemberEntry(email: string, firstName: Text, lastName: Text, timestamp: Text)

  datatype LoginReply =
    | LoggedIn(email: string, firstName: Text, lastName: Text, familyId: string, timestamp: Text,
               familyMembers: set<MemberEntry>)
    | InvalidCredentials
    | InternalError
  {
    function Status(): int
    {
      match this
      case LoggedIn(_, _, _, _, _, _) => 200
      case InvalidCredentials => 401
      case InternalError => 500
    }
  }

  /** The records of the credential file as `json.load` returns them. */
  function Entries(file: CredentialFile): map<string, Account>
  {
    if file.Table? then file.entries else map[]
  }

  function MemberEntryOf(table: map<string, Account>, e: string): MemberEntry
    requires e in table
  {
    MemberEntry(e, table[e].firstName, table[e].lastName, table[e].timestamp)
  }

  /** The list comprehension over `credentials.items()`. */
  function AllMembers(table: map<string, Account>): set<MemberEntry>
  {
    set e | e in table :: MemberEntryOf(table, e)
  }

  /** `/login`: an unknown email, or a password bcrypt rejects, gives 401; a
      missing password makes `check_password` raise, which the error handler
      turns into 500; otherwise 200 with the account's fields. */
  function Login(file: CredentialFile, email: Text, password: Text, checkpw: (string, string) -> bool)
    : (r: LoginReply)
    ensures email !in Load(file) ==> r == InvalidCredentials
    ensures email in Load(file) && password == Null ==> r == InternalError
    ensures email in Load(file) && password.Str? ==>
              (r.LoggedIn? <==> checkpw(Load(file)[email].password, password.s))
    ensures email in Load(file) && password.Str? && !checkpw(Load(file)[email].password, password.s) ==>
              r == InvalidCredentials
    ensures r == InternalError <==> email in Load(file) && password == Null
    ensures r.LoggedIn? ==>
              && email == Str(r.email) && email in Load(file)
              && var a := Load(file)[email];
                 r.firstName == a.firstName && r.lastName == a.lastName
                 && r.familyId == a.familyId && r.timestamp == a.timestamp
    ensures r.Status() == 401 <==> r == InvalidCredentials
  {
    var credentials := Load(file);
    if email !in credentials then InvalidCredentials
    else
      var account := credentials[email];
      match password
      case Null => InternalError
      case Str(p) =>
        if checkpw(account.password, p) then
          LoggedIn(email.s, account.firstName, account.lastName, account.familyId, account.timestamp,
                   AllMembers(Entries(file)))
        else
          InvalidCredentials
  }

  lemma {:induction false} AllMembersCount(table: map<string, Account>)
    ensures |AllMembers(table)| == |table|
    decreases |table|
  {
    if |table| > 0 {
      var e :| e in table;
      var rest := table - {e};
      AllMembersCount(rest);
      forall x | x in rest ensures MemberEntryOf(rest, x) == MemberEntryOf(table, x) {
      }
      assert AllMembers(table) == AllMembers(rest) + {MemberEntryOf(table, e)};
      assert MemberEntryOf(table, e) !in AllMembers(rest);
    }
  }

  /** A successful login lists one entry for every account in the table:
      the caller's own and those of every other family included. */
  lemma LoginListsEveryAccount(file: CredentialFile, email: Text, password: Text, checkpw: (string, string) -> bool)
    ensures var r := Login(file, email, password, checkpw);
            r.LoggedIn? ==>
              && |r.familyMembers| == |Entries(file)|
              && (forall e :: e in Entries(file) ==> MemberEntryOf(Entries(file), e) in r.familyMembers)
              && (forall m :: m in r.familyMembers ==> m.email in Entries(file))
              && MemberEntryOf(Entries(file), r.email) in r.familyMembers
  {
    AllMembersCount(Entries(file));
  }

  // ---------------------------------------------------------- get-meal-plan

  datatype PlanReply = PlanContent(plan: string) | MissingFamilyId | PlanNotFound | LoadFailed
  {
    function Status(): int
    {
      match this
      case PlanContent(_) => 200
      case MissingFamilyId => 400
      case PlanNotFound => 404
      case LoadFailed => 500
    }
  }

  /** `/get-meal-plan`: reads `meal_plans/<family_id>/1.json`, and no other version. */
  function GetMealPlan(folders: map<string, Folder>, familyId: Text): (r: PlanReply)
    ensures familyId == Null <==> r == MissingFamilyId
    ensures familyId.Str? ==>
              var folder := FolderAt(folders, PathJoin(PlansRoot, familyId.s));
              && (r == PlanNotFound <==> 1 !in folder)
              && (r == LoadFailed <==> 1 in folder && folder[1] == Unreadable)
              && (r.PlanContent? ==> 1 in folder && folder[1] == Plan(r.plan))
  {
    match familyId
    case Null => MissingFamilyId
    case Str(id) =>
      var folder := FolderAt(folders, PathJoin(PlansRoot, id));
      if 1 !in folder then PlanNotFound
      else match folder[1]
        case Unreadable => LoadFailed
        case Plan(text) => PlanContent(text)
  }

  /** Once a family's first plan exists, later saves into its folder do not
      change what `/get-meal-plan` returns. */
  lemma LaterVersionsAreNotServed(folders: map<string, Folder>, id: string, plan: string, fault: DiskFault)
    requires 1 in FolderAt(folders, PathJoin(PlansRoot, id))
    ensures var after := SaveOutcome(folders, PathJoin(PlansRoot, id), plan, fault).0;
            GetMealPlan(after, Str(id)) == GetMealPlan(folders, Str(id))
  {
    var path := PathJoin(PlansRoot, id);
    var after := SaveOutcome(folders, path, plan, fault).0;
    assert FolderAt(after, path)[1] == FolderAt(folders, path)[1];
  }

  /** The first successful save into a family folder with no plan yet is
      what `/get-meal-plan` then returns. */
  lemma FirstSaveIsServed(folders: map<string, Folder>, id: string, plan: string, fault: DiskFault)
    requires 1 !in FolderAt(folders, PathJoin(PlansRoot, id))
    requires SaveOutcome(folders, PathJoin(PlansRoot, id), plan, fault).1.Success?
    ensures GetMealPlan(SaveOutcome(folders, PathJoin(PlansRoot, id), plan, fault).0, Str(id)) == PlanContent(plan)
  {
    FirstFreeIsGap(FolderAt(folders, PathJoin(PlansRoot, id)).Keys, 1);
  }

  // ---------------------------------------------------------------- webhook

  datatype WebhookReply =
    | PlanSaved(path: string)
    | AlreadyRegistered(email: Text)
    | GenerationFailed
    | SaveFailed
  {
    function Status(): int
    {
      match this
      case PlanSaved(_) => 200
      case AlreadyRegistered(_) => 400
      case GenerationFailed => 500
      case SaveFailed => 500
    }
  }

  /** The bcrypt hash of `DefaultPassword` computed for each slot, one salt per slot. */
  function SlotHashes(hashpw: (string, string) -> string, salts: seq<string>): (h: seq<string>)
    requires |salts| == 4
    ensures |h| == 4 && forall i :: 0 <= i < 4 ==> h[i] == hashpw(DefaultPassword, salts[i])
  {
    seq(4, i requires 0 <= i < 4 => hashpw(DefaultPassword, salts[i]))
  }

  /** Every account a submission creates gets, as its password, the hash of
      `DefaultPassword` salted for the lowest slot carrying its email. */
  lemma NewAccountsGetDefaultPassword(creds: Credentials, members: Slots, familyId: string, timestamp: Text,
                                      salts: seq<string>, hashpw: (string, string) -> string)
    requires |salts| == 4
    ensures var after := Provisioned(creds, members, Grant(familyId, timestamp, SlotHashes(hashpw, salts)), 4);
            forall e :: e in after && e !in creds ==>
              exists i: nat :: FirstSlotWith(members, e, i) && after[e].password == hashpw(DefaultPassword, salts[i])
  {
    NewAccountsShareFamily(creds, members, Grant(familyId, timestamp, SlotHashes(hashpw, salts)));
  }

  /** When bcrypt accepts `DefaultPassword` against its hash under each slot's
      salt, every email a submission registers can then log in with it. */
  lemma NewAccountLogsIn(file: CredentialFile, members: Slots, familyId: string, timestamp: Text,
                         salts: seq<string>, hashpw: (string, string) -> string,
                         checkpw: (string, string) -> bool, i: nat)
    requires |salts| == 4 && i < 4
    requires forall j :: 0 <= j < 4 ==> checkpw(hashpw(DefaultPassword, salts[j]), DefaultPassword)
    requires members[i].email.Str? && members[i].email !in Load(file)
    ensures var grant := Grant(familyId, timestamp, SlotHashes(hashpw, salts));
            var saved := Table(Stored(Provisioned(Load(file), members, grant, 4)));
            Login(saved, members[i].email, Str(DefaultPassword), checkpw).LoggedIn?
  {
    var before := Load(file);
    var grant := Grant(familyId, timestamp, SlotHashes(hashpw, salts));
    var after := Provisioned(before, members, grant, 4);
    var e := members[i].email;
    ProvisionedSpec(before, members, grant, 4);
    assert e in SlotEmails(members, 4);
    var k := SavedRecord(after, e);
    assert k !in before;
    NewAccountsGetDefaultPassword(before, members, familyId, timestamp, salts, hashpw);
    var j: nat :| FirstSlotWith(members, k, j) && after[k].password == hashpw(DefaultPassword, salts[j]);
    assert checkpw(Load(Table(Stored(after)))[e].password, DefaultPassword);
  }

  /** The key of `m` whose record a reload finds under the string key `e`:
      `e` itself, or `None` when `e` is `"null"` and `None` is also a key. */
  lemma SavedRecord(m: Credentials, e: Text) returns (k: Text)
    requires e.Str? && e in m
    ensures k in m && (k == e || k == Null)
    ensures e in Load(Table(Stored(m))) && Load(Table(Stored(m)))[e] == m[k]
  {
    k := if e.s == "null" && Null in m then Null else e;
    assert e == Str(e.s);
  }

  /** Appending one element after a concatenation. */
  lemma AppendOne<T>(a: seq<T>, b: seq<T>, x: T)
    ensures (a + b) + [x] == a + (b + [x])
  {
  }

  /** The running application: its credential file, the plan folders and the
      recipients of every `send_email` call, in order. */
  class App {
    var credentialFile: CredentialFile
    var sentTo: seq<Text>
    const service: MealPlanService
    const saver: MealPlanSaver
    const disk: PlanDisk

    /** The service is built when the module is imported; an empty key makes
        that import fail, so a running app always holds a non-empty key. */
    constructor (credentialFile: CredentialFile, service: MealPlanService, disk: PlanDisk)
      requires service.apiKey != ""
      ensures this.credentialFile == credentialFile && sentTo == []
      ensures this.service == service && this.disk == disk && saver.baseFolder == PlansRoot
    {
      this.credentialFile := credentialFile;
      this.sentTo := [];
      this.service := service;
      this.disk := disk;
      this.saver := new MealPlanSaver();
    }

    /** One pass of the provisioning loop, for slot `i`: when the slot's
        email is not yet a key of the in-memory table, add its account, save
        the table and mail the address. */
    method ProvisionSlot(credentials: Credentials, members: Slots, i: nat, familyId: string, timestamp: Text,
                         salts: seq<string>, hashpw: (string, string) -> string)
      returns (next: Credentials)
      requires i < 4 && |salts| == 4
      modifies this
      ensures var grant := Grant(familyId, timestamp, SlotHashes(hashpw, salts));
              var e := members[i].email;
              && (e in credentials ==>
                    next == credentials && credentialFile == old(credentialFile) && sentTo == old(sentTo))
              && (e !in credentials ==>
                    && next == credentials[e := SlotAccount(members, grant, i)]
                    && credentialFile == Table(Stored(next))
                    && sentTo == old(sentTo) + [e])
    {
      var email := members[i].email;
      next := credentials;
      if email !in credentials {
        var hashed := hashpw(DefaultPassword, salts[i]);
        next := credentials[email := Account(members[i].firstName, members[i].lastName,
                                             hashed, familyId, timestamp)];
        credentialFile := Table(Stored(next));
        sentTo := sentTo + [email];
      }
    }

    /** The provisioning loop of `/webhook`: slots 1 to 4 in order. The
        duplicate check has passed, so the first slot's email is not a key. */
    method ProvisionAccounts(members: Slots, familyId: string, timestamp: Text, salts: seq<string>,
                             hashpw: (string, string) -> string)
      requires |salts| == 4
      requires members[0].email !in Load(credentialFile)
      modifies this
      ensures var before := Load(old(credentialFile));
              var grant := Grant(familyId, timestamp, SlotHashes(hashpw, salts));
              && credentialFile == Table(Stored(Provisioned(before, members, grant, 4)))
              && sentTo == old(sentTo) + NewRecipients(before, members, grant, 4)
    {
      var credentials := Load(credentialFile);
      ghost var before := credentials;
      ghost var grant := Grant(familyId, timestamp, SlotHashes(hashpw, salts));
      for i := 0 to 4
        invariant credentials == Provisioned(before, members, grant, i)
        invariant i > 0 ==> credentialFile == Table(Stored(credentials))
        invariant sentTo == old(sentTo) + NewRecipients(before, members, grant, i)
      {
        assert i == 0 ==> members[i].email !in credentials;
        ghost var sent := NewRecipients(before, members, grant, i);
        AppendOne(old(sentTo), sent, members[i].email);
        credentials := ProvisionSlot(credentials, members, i, familyId, timestamp, salts, hashpw);
      }
    }

    /** `/webhook`. `familyId` is the fresh uuid, `salts` the bcrypt salts,
        `generate` the completion service (None when the call fails) and
        `fault` what the filesystem does to the plan save. */
    method Webhook(data: map<string, Text>, familyId: string, salts: seq<string>,
                   hashpw: (string, string) -> string, generate: string -> Option<string>, fault: DiskFault)
      returns (r: WebhookReply)
      requires |salts| == 4
      modifies this, disk
      ensures var sub := ParseSubmission(data);
              var before := Load(old(credentialFile));
              FirstRegistered(before, sub.members).Some? ==>
                var e := sub.members[FirstRegistered(before, sub.members).value].email;
                && r == AlreadyRegistered(e)
                && credentialFile == old(credentialFile)
                && sentTo == old(sentTo) + [e]
                && disk.folders == old(disk.folders)
      ensures var sub := ParseSubmission(data);
              var before := Load(old(credentialFile));
              var grant := Grant(familyId, sub.timestamp, SlotHashes(hashpw, salts));
              FirstRegistered(before, sub.members).None? ==>
                && credentialFile == Table(Stored(Provisioned(before, sub.members, grant, 4)))
                && sentTo == old(sentTo) + NewRecipients(before, sub.members, grant, 4)
                && var completion := generate(MealPlanPrompt(sub.members));
                   && (completion.None? ==> r == GenerationFailed && disk.folders == old(disk.folders))
                   && (completion.Some? ==>
                         var outcome := SaveOutcome(old(disk.folders), PathJoin(saver.baseFolder, familyId),
                                                    completion.value, fault);
                         && disk.folders == outcome.0
                         && r == (if outcome.1.Success? then PlanSaved(outcome.1.value) else SaveFailed))
    {
      var sub := ParseSubmission(data);
      var ok, existing := CheckExistingEmails(credentialFile, sub.members);
      if !ok {
        sentTo := sentTo + [existing];
        return AlreadyRegistered(existing);
      }

      ProvisionAccounts(sub.members, familyId, sub.timestamp, salts, hashpw);

      var prompt := MealPlanPrompt(sub.members);
      var completion := generate(prompt);
      if completion.None? {
        return GenerationFailed;
      }
      var saved := saver.SaveMealPlan(disk, familyId, completion.value, fault);
      if saved.Success? {
        r := PlanSaved(saved.value);
      } else {
        r := SaveFailed;
      }
    }
  }
}
