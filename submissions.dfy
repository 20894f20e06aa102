/** The `/webhook` form submission: four member slots and a timestamp. */
module Submissions {
  import opened Common

  /** One member slot of the submission (`email_i`, `first_name_i`, `last_name_i`,
      `dietary_restrictions_i`). */
  datatype Member = Member(email: Text, firstName: Text, lastName: Text, restrictions: Text)

  /** The four slots, in submission order: slot i of the form is index i - 1. */
  type Slots = s: seq<Member> | |s| == 4
    witness [Member(Null, Null, Null, Null), Member(Null, Null, Null, Null),
             Member(Null, Null, Null, Null), Member(Null, Null, Null, Null)]

  datatype Submission = Submission(members: Slots, timestamp: Text)

  /** The request key `f"{prefix}{i}"` of slot `i`. */
  function SlotKey(prefix: string, i: nat): string
    requires 1 <= i <= 4
  {
    prefix + [DigitChar(i)]
  }

  function ParseMember(data: map<string, Text>, i: nat): Member
    requires 1 <= i <= 4
  {
    Member(Get(data, SlotKey("email_", i), if i == 1 then Str("") else Null),
           Get(data, SlotKey("first_name_", i), Null),
           Get(data, SlotKey("last_name_", i), Null),
           Get(data, SlotKey("dietary_restrictions_", i), Str("None")))
  }

  /** Builds `member_restrictions` and reads `timestampt` from the decoded body. */
  function ParseSubmission(data: map<string, Text>): (sub: Submission)
    ensures "email_1" !in data ==> sub.members[0].email == Str("")
    ensures "email_2" !in data ==> sub.members[1].email == Null
    ensures "email_3" !in data ==> sub.members[2].email == Null
    ensures "email_4" !in data ==> sub.members[3].email == Null
    ensures forall i :: 0 <= i < 4 ==> SlotKey("email_", i + 1) in data ==> sub.members[i].email == data[SlotKey("email_", i + 1)]
    ensures forall i :: 0 <= i < 4 ==>
      sub.members[i].restrictions == (if SlotKey("dietary_restrictions_", i + 1) in data
                                      then data[SlotKey("dietary_restrictions_", i + 1)] else Str("None"))
    ensures forall i :: 0 <= i < 4 ==>
      sub.members[i].firstName == (if SlotKey("first_name_", i + 1) in data
                                   then data[SlotKey("first_name_", i + 1)] else Null)
    ensures forall i :: 0 <= i < 4 ==>
      sub.members[i].lastName == (if SlotKey("last_name_", i + 1) in data
                                  then data[SlotKey("last_name_", i + 1)] else Null)
    ensures "timestampt" in data ==> sub.timestamp == data["timestampt"]
    ensures "timestampt" !in data ==> sub.timestamp == Null
  {
    assert SlotKey("email_", 1) == "email_1" && SlotKey("email_", 2) == "email_2";
    assert SlotKey("email_", 3) == "email_3" && SlotKey("email_", 4) == "email_4";
    Submission([ParseMember(data, 1), ParseMember(data, 2), ParseMember(data, 3), ParseMember(data, 4)],
               Get(data, "timestampt", Null))
  }
}
