/** The `contacts` payloads of `create_contact` and `update_contact`, and the request of
    `list_contact_groups`. */
module Contacts {
  import opened Wrappers
  import opened Payload

  /** The two kinds of contact info the tools write. */
  datatype InfoKind = Email | Phone

  /** One `{"kind": ..., "value": ...}` entry of a contact's `infos` list. */
  datatype Info = Info(kind: InfoKind, value: string)

  /** The `contacts` JSON object: one field per key, `None` where the key is absent. */
  datatype Contact = Contact(
    contactBook: Option<string>,
    firstName: Option<string>,
    lastName: Option<string>,
    infos: Option<seq<Info>>,
    notes: Option<string>,
    memberships: Option<Value>)

  /** The infos the two tools write for an email and a phone: one entry per non-empty value,
      the email first. */
  function ContactInfos(email: Option<string>, phone: Option<string>): (infos: seq<Info>)
    ensures |infos| == (if TruthyText(email) then 1 else 0) + (if TruthyText(phone) then 1 else 0)
    ensures TruthyText(email) ==> infos[0] == Info(Email, email.value)
    ensures TruthyText(phone) ==> infos[|infos| - 1] == Info(Phone, phone.value)
  {
    (if TruthyText(email) then [Info(Email, email.value)] else [])
    + (if TruthyText(phone) then [Info(Phone, phone.value)] else [])
  }

  /** The `infos` list as both tools build it, by appending. */
  method InfoList(email: Option<string>, phone: Option<string>) returns (infos: seq<Info>)
    ensures infos == ContactInfos(email, phone)
  {
    infos := [];
    if TruthyText(email) {
      infos := infos + [Info(Email, email.value)];
    }
    if TruthyText(phone) {
      infos := infos + [Info(Phone, phone.value)];
    }
  }

  /** Whether a memberships argument counts as given for `create_contact`: a non-empty string. */
  predicate TruthyJson(o: Option<JsonArg>) {
    o.Some? && |o.value.text| > 0
  }

  /** The contact of `create_contact`: the contact book always; names and notes when truthy;
      `infos` only when it would not be empty; the parsed memberships when their text is
      non-empty, and an error when that text does not parse. */
  method CreateContactPayload(
    contactBookId: string,
    firstName: Option<string>,
    lastName: Option<string>,
    email: Option<string>,
    phone: Option<string>,
    notes: Option<string>,
    membershipsData: Option<JsonArg>
  ) returns (r: Result<Contact, Error>)
    ensures r.Failure? <==> TruthyJson(membershipsData) && membershipsData.value.parsed.None?
    ensures r.Failure? ==> r.error == InvalidJson("memberships_data")
    ensures r.Success? ==>
      && r.value.contactBook == Some(contactBookId)
      && (r.value.firstName.Some? <==> TruthyText(firstName))
      && (TruthyText(firstName) ==> r.value.firstName == firstName)
      && (r.value.lastName.Some? <==> TruthyText(lastName))
      && (TruthyText(lastName) ==> r.value.lastName == lastName)
      && (r.value.notes.Some? <==> TruthyText(notes))
      && (TruthyText(notes) ==> r.value.notes == notes)
    ensures r.Success? ==>
      && (r.value.infos.Some? <==> TruthyText(email) || TruthyText(phone))
      && (r.value.infos.Some? ==> r.value.infos.value == ContactInfos(email, phone) && r.value.infos.value != [])
    ensures r.Success? ==>
      && (r.value.memberships.Some? <==> TruthyJson(membershipsData))
      && (r.value.memberships.Some? ==> membershipsData.value.parsed == r.value.memberships)
  {
    var first := KeptText(firstName);
    var last := KeptText(lastName);
    var infos := InfoList(email, phone);
    var listed := if infos != [] then Some(infos) else None;
    var remark := KeptText(notes);
    var memberships := None;
    if TruthyJson(membershipsData) {
      if membershipsData.value.parsed.None? {
        return Failure(InvalidJson("memberships_data"));
      }
      memberships := membershipsData.value.parsed;
    }
    return Success(Contact(Some(contactBookId), first, last, listed, remark, memberships));
  }

  /** The contact changes of `update_contact`: every argument that is not `None` is sent, even
      an empty one; `infos` is sent whenever an email or a phone is given, possibly empty,
      which clears the contact's infos; memberships that do not parse are an error, and
      nothing at all to send is an error. */
  method UpdateContactPayload(
    firstName: Option<string>,
    lastName: Option<string>,
    email: Option<string>,
    phone: Option<string>,
    notes: Option<string>,
    membershipsData: Option<JsonArg>
  ) returns (r: Result<Contact, Error>)
    ensures r.Failure? <==>
      || (membershipsData.Some? && membershipsData.value.parsed.None?)
      || (firstName.None? && lastName.None? && email.None? && phone.None? && notes.None? && membershipsData.None?)
    ensures r.Failure? && membershipsData.Some? ==> r.error == InvalidJson("memberships_data")
    ensures r.Failure? && membershipsData.None? ==> r.error == NothingToUpdate
    ensures r.Success? ==>
      && r.value.contactBook.None?
      && r.value.firstName == firstName
      && r.value.lastName == lastName
      && r.value.notes == notes
      && (r.value.infos.Some? <==> email.Some? || phone.Some?)
      && (r.value.infos.Some? ==> r.value.infos.value == ContactInfos(email, phone))
      && (r.value.memberships.Some? <==> membershipsData.Some?)
      && (r.value.memberships.Some? ==> membershipsData.value.parsed == r.value.memberships)
  {
    var listed := None;
    if email.Some? || phone.Some? {
      var infos := InfoList(email, phone);
      listed := Some(infos);
    }
    var memberships := None;
    if membershipsData.Some? {
      if membershipsData.value.parsed.None? {
        return Failure(InvalidJson("memberships_data"));
      }
      memberships := membershipsData.value.parsed;
    }
    var contact := Contact(None, firstName, lastName, listed, notes, memberships);
    if contact == Contact(None, None, None, None, None, None) {
      return Failure(NothingToUpdate);
    }
    return Success(contact);
  }

  /** The kinds of group `list_contact_groups` accepts. */
  const GroupKinds := {"group", "organization"}

  /** The query of `list_contact_groups`: the kind alone, and an error for any kind other
      than a group or an organization. */
  function GroupsParams(kind: string): (r: Result<Fields, Error>)
    ensures r.Failure? <==> kind !in GroupKinds
    ensures r.Failure? ==> r.error == InvalidGroupKind(kind)
    ensures r.Success? ==> r.value.Keys == {"kind"} && r.value["kind"] == Str(kind)
  {
    if kind in GroupKinds then Success(map["kind" := Str(kind)]) else Failure(InvalidGroupKind(kind))
  }
}
