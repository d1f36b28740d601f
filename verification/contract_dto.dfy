/**
 * The create-contract request as it reaches the service: the request record,
 * its nested documents, users and flags, the validation rules the request
 * pipe enforces, the `language` default, and the request's JSON form.
 */
module ContractDto {
  import opened Wire

  /** A document to sign, given inline (`base64`) or by a prior upload (`storageId`). */
  datatype DocumentDto = DocumentDto(name: string, base64: Option<string>, storageId: Option<string>)

  /** A participant of the contract. */
  datatype UserDto = UserDto(
    name: string,
    email: Option<string>,
    phone: Option<string>,
    groups: seq<string>,
    validationsToSkip: Option<seq<string>>)

  /** Optional flags; the notification options are plain strings once validated. */
  datatype FlagsDto = FlagsDto(chosenNotificationOptions: Option<seq<string>>)

  /** The create-contract request. Every field the request record declares is here. */
  datatype CreateContractDto = CreateContractDto(
    title: string,
    description: Option<string>,
    reference: Option<string>,
    language: Option<string>,
    chosenNotificationOptions: Option<seq<string>>,
    expirationDatetime: Option<string>,
    expirationInHours: Option<int>,
    templateId: string,
    onBehalfOf: Option<string>,
    documents: seq<DocumentDto>,
    users: seq<UserDto>,
    metadata: Option<map<string, Json>>,
    flags: Option<FlagsDto>,
    templateOptions: Option<map<string, Json>>)

  const DefaultLanguage: string := "es"
  const TitleMaxLength: nat := 255
  const DescriptionMaxLength: nat := 500
  const ReferenceMaxLength: nat := 255
  const MinExpirationInHours: int := 1

  /** A document is checked only for a non-empty name. */
  predicate ValidDocument(d: DocumentDto)
  {
    |d.name| > 0
  }

  /** A user is checked for a non-empty name (the e-mail format check is library behaviour). */
  predicate ValidUser(u: UserDto)
  {
    |u.name| > 0
  }

  /**
   * The rules the validation decorators enforce. Deliberately absent: the
   * exclusion of "sms" together with "whatsapp", the 1 to 10 document count,
   * the size limit, the `es`/`en` enumeration and non-empty user groups, which
   * are documented but not checked.
   */
  predicate Valid(c: CreateContractDto)
  {
    && 0 < |c.title| <= TitleMaxLength
    && (c.description.Some? ==> |c.description.value| <= DescriptionMaxLength)
    && (c.reference.Some? ==> |c.reference.value| <= ReferenceMaxLength)
    && (c.expirationInHours.Some? ==> c.expirationInHours.value >= MinExpirationInHours)
    && |c.templateId| > 0
    && (forall i :: 0 <= i < |c.documents| ==> ValidDocument(c.documents[i]))
    && (forall i :: 0 <= i < |c.users| ==> ValidUser(c.users[i]))
  }

  /** The property initialiser: an absent `language` becomes `es`; nothing else changes. */
  function WithDefaults(c: CreateContractDto): (r: CreateContractDto)
    ensures r.language.Some?
    ensures c.language.Some? ==> r.language == c.language
    ensures c.language.None? ==> r.language == Some(DefaultLanguage)
    ensures r.(language := c.language) == c
  {
    if c.language.Some? then c else c.(language := Some(DefaultLanguage))
  }

  /** Defaulting does not change whether a request is valid, and applying it twice is applying it once. */
  lemma DefaultsKeepValidity(c: CreateContractDto)
    ensures Valid(WithDefaults(c)) <==> Valid(c)
    ensures WithDefaults(WithDefaults(c)) == WithDefaults(c)
  {
  }

  /** Each enforced rule, broken on its own, rejects the request. */
  lemma EnforcedRules(c: CreateContractDto)
    ensures |c.title| == 0 || |c.title| > TitleMaxLength ==> !Valid(c)
    ensures c.description.Some? && |c.description.value| > DescriptionMaxLength ==> !Valid(c)
    ensures c.reference.Some? && |c.reference.value| > ReferenceMaxLength ==> !Valid(c)
    ensures c.expirationInHours.Some? && c.expirationInHours.value < MinExpirationInHours ==> !Valid(c)
    ensures |c.templateId| == 0 ==> !Valid(c)
    ensures (exists i :: 0 <= i < |c.documents| && c.documents[i].name == "") ==> !Valid(c)
    ensures (exists i :: 0 <= i < |c.users| && c.users[i].name == "") ==> !Valid(c)
  {
  }

  /** A request that keeps every enforced rule and uses the given options, documents and language. */
  function Sample(options: seq<string>, documents: seq<DocumentDto>, language: string): CreateContractDto
  {
    CreateContractDto(
      "Service Contract", None, None, Some(language), Some(options), None, Some(24),
      "keynua-peru-default", None, documents,
      [UserDto("Javier", None, Some("+51987654321"), ["signers"], None)],
      None, None, None)
  }

  /** "sms" and "whatsapp" together are accepted: the documented exclusion is not enforced. */
  lemma SmsWithWhatsappAccepted()
    ensures exists c :: Valid(c) && c.chosenNotificationOptions == Some(["sms", "whatsapp"])
  {
    var c := Sample(["sms", "whatsapp"], [DocumentDto("contract.pdf", None, Some("stor_abc123"))], "es");
    assert Valid(c);
  }

  /** Any number of documents is accepted, none or more than ten included. */
  lemma AnyDocumentCountAccepted(n: nat)
    ensures exists c :: Valid(c) && |c.documents| == n
  {
    var docs := seq(n, i => DocumentDto("contract.pdf", Some("JVBERi0xLjQK"), None));
    var c := Sample(["email"], docs, "es");
    assert Valid(c);
  }

  /** The language is only checked to be a string: any string is accepted and kept by the default. */
  lemma AnyLanguageAccepted(language: string)
    ensures exists c :: Valid(c) && WithDefaults(c).language == Some(language)
  {
    var c := Sample(["email"], [], language);
    assert Valid(c);
  }

  /**
   * Neither the notification options nor the language are checked beyond
   * their types, and documents are checked one by one, never counted: changing
   * any of them (to valid documents) never changes whether a request is valid.
   */
  lemma UncheckedFields(c: CreateContractDto, options: Option<seq<string>>, language: Option<string>, documents: seq<DocumentDto>)
    requires forall i :: 0 <= i < |documents| ==> ValidDocument(documents[i])
    ensures Valid(c.(chosenNotificationOptions := options)) <==> Valid(c)
    ensures Valid(c.(language := language)) <==> Valid(c)
    ensures Valid(c.(documents := c.documents + documents)) <==> Valid(c)
  {
    var d := c.(documents := c.documents + documents);
    assert forall i :: 0 <= i < |c.documents| ==> d.documents[i] == c.documents[i];
    assert forall i :: |c.documents| <= i < |d.documents| ==> d.documents[i] == documents[i - |c.documents|];
  }

  // The request's JSON form: the object the service spreads into the payload.

  function FlagsJson(f: FlagsDto): Json
  {
    JObject(Member("chosenNotificationOptions", OptStrings(f.chosenNotificationOptions)))
  }

  function DocumentDtoJson(d: DocumentDto): Json
  {
    JObject(map["name" := JString(d.name)]
      + Member("base64", OptString(d.base64))
      + Member("storageId", OptString(d.storageId)))
  }

  function UserDtoJson(u: UserDto): Json
  {
    JObject(map["name" := JString(u.name)]
      + Member("email", OptString(u.email))
      + Member("phone", OptString(u.phone))
      + map["groups" := JStrings(u.groups)]
      + Member("validationsToSkip", OptStrings(u.validationsToSkip)))
  }

  function DocumentDtosJson(ds: seq<DocumentDto>): Json
  {
    JArray(seq(|ds|, i requires 0 <= i < |ds| => DocumentDtoJson(ds[i])))
  }

  function UserDtosJson(us: seq<UserDto>): Json
  {
    JArray(seq(|us|, i requires 0 <= i < |us| => UserDtoJson(us[i])))
  }

  function OptFlags(f: Option<FlagsDto>): Option<Json>
  {
    if f.Some? then Some(FlagsJson(f.value)) else None
  }

  /**
   * The top-level properties of the request, each named after the property
   * it stands for (`Title` is `title`, `ChosenNotificationOptions` is
   * `chosenNotificationOptions`, and so on).
   */
  datatype Field =
    | Title | Description | Reference | Language | ChosenNotificationOptions
    | ExpirationDatetime | ExpirationInHours | TemplateId | OnBehalfOf
    | Documents | Users | Metadata | Flags | TemplateOptions

  /** The value of one property of the request; `None` stands for `undefined`. */
  function RequestValue(c: CreateContractDto, k: Field): Option<Json>
  {
    match k
    case Title => Some(JString(c.title))
    case Description => OptString(c.description)
    case Reference => OptString(c.reference)
    case Language => OptString(c.language)
    case ChosenNotificationOptions => OptStrings(c.chosenNotificationOptions)
    case ExpirationDatetime => OptString(c.expirationDatetime)
    case ExpirationInHours => OptNumber(c.expirationInHours)
    case TemplateId => Some(JString(c.templateId))
    case OnBehalfOf => OptString(c.onBehalfOf)
    case Documents => Some(DocumentDtosJson(c.documents))
    case Users => Some(UserDtosJson(c.users))
    case Metadata => OptObject(c.metadata)
    case Flags => OptFlags(c.flags)
    case TemplateOptions => OptObject(c.templateOptions)
  }

  /**
   * The request as a JavaScript object: every declared property maps to its
   * value, `None` standing for `undefined` (which JSON serialisation omits).
   */
  function RequestObject(c: CreateContractDto): map<Field, Option<Json>>
  {
    map k: Field :: RequestValue(c, k)
  }
}
