/**
 * The contracts service: it turns a create-contract request into the payload
 * the Keynua API expects, issues the create (PUT) and find (GET) calls with a
 * header set fixed at construction, and shapes the upstream reply into the
 * result handed back to the controller, sending every failure through the
 * error translator.
 *
 * Two collaborators are parameters: `clearBase64`, whose definition is not
 * part of this model, and `send`, the HTTP client, which maps the request
 * issued to the upstream's reply.
 */
module Contracts {
  import opened Wire
  import opened ContractDto
  import opened ErrorHandling

  // ---------------------------------------------------------------------------
  // Phone cleaning: `phone.replace(/[^0-9]/g, '')`

  predicate IsDigit(c: char)
  {
    '0' <= c <= '9'
  }

  predicate AllDigits(s: string)
  {
    forall i :: 0 <= i < |s| ==> IsDigit(s[i])
  }

  /** Removes every character outside 0-9, keeping the digits in order. */
  function StripNonDigits(s: string): (r: string)
    ensures AllDigits(r)
    ensures |r| <= |s|
  {
    if s == [] then []
    else (if IsDigit(s[0]) then [s[0]] else []) + StripNonDigits(s[1..])
  }

  /** Stripping works piecewise: it is the concatenation of the stripped parts. */
  lemma {:induction false} StripAppend(a: string, b: string)
    ensures StripNonDigits(a + b) == StripNonDigits(a) + StripNonDigits(b)
  {
    if a == [] {
      assert a + b == b;
    } else {
      assert (a + b)[0] == a[0];
      assert (a + b)[1..] == a[1..] + b;
      StripAppend(a[1..], b);
    }
  }

  /** Each digit occurs in the result exactly as often as in the input. */
  lemma {:induction false} StripKeepsEveryDigit(s: string, c: char)
    requires IsDigit(c)
    ensures multiset(StripNonDigits(s))[c] == multiset(s)[c]
  {
    if s != [] {
      StripKeepsEveryDigit(s[1..], c);
      assert s == [s[0]] + s[1..];
    }
  }

  /** A string is left unchanged by stripping exactly when it holds only digits. */
  lemma {:induction false} StripFixedExactlyOnDigits(s: string)
    ensures StripNonDigits(s) == s <==> AllDigits(s)
  {
    if s != [] && AllDigits(s) {
      assert AllDigits(s[1..]) by {
        forall i | 0 <= i < |s[1..]| ensures IsDigit(s[1..][i]) { assert s[1..][i] == s[i + 1]; }
      }
      StripFixedExactlyOnDigits(s[1..]);
    }
  }

  /** Stripping twice is stripping once. */
  lemma StripIdempotent(s: string)
    ensures StripNonDigits(StripNonDigits(s)) == StripNonDigits(s)
  {
    StripFixedExactlyOnDigits(StripNonDigits(s));
  }

  /** One step of the stripping, at position `i`. */
  lemma StripFrom(s: string, i: nat)
    requires i < |s|
    ensures StripNonDigits(s[i..]) == (if IsDigit(s[i]) then [s[i]] else []) + StripNonDigits(s[i + 1..])
  {
    assert s[i..][1..] == s[i + 1..];
  }

  /** The phone of the service's payload test, "+51 931 022 090", character by character. */
  lemma PhoneExample(phone: string)
    requires |phone| == 15
      && phone[0] == '+'
      && phone[1] == '5'
      && phone[2] == '1'
      && phone[3] == ' '
      && phone[4] == '9'
      && phone[5] == '3'
      && phone[6] == '1'
      && phone[7] == ' '
      && phone[8] == '0'
      && phone[9] == '2'
      && phone[10] == '2'
      && phone[11] == ' '
      && phone[12] == '0'
      && phone[13] == '9'
      && phone[14] == '0'
    ensures StripNonDigits(phone) == "51931022090"
  {
    assert phone[15..] == [];
    StripFrom(phone, 14);
    StripFrom(phone, 13);
    StripFrom(phone, 12);
    StripFrom(phone, 11);
    StripFrom(phone, 10);
    StripFrom(phone, 9);
    StripFrom(phone, 8);
    StripFrom(phone, 7);
    StripFrom(phone, 6);
    StripFrom(phone, 5);
    StripFrom(phone, 4);
    StripFrom(phone, 3);
    StripFrom(phone, 2);
    StripFrom(phone, 1);
    StripFrom(phone, 0);
    assert phone[0..] == phone;
  }

  /** `phone?.replace(...)`: an absent phone stays absent, a present one is stripped. */
  function CleanPhone(phone: Option<string>): (r: Option<string>)
    ensures r.Some? <==> phone.Some?
    ensures r.Some? ==> r.value == StripNonDigits(phone.value)
    ensures r.Some? ==> AllDigits(r.value) && |r.value| <= |phone.value|
  {
    if phone.Some? then Some(StripNonDigits(phone.value)) else None
  }

  // ---------------------------------------------------------------------------
  // The payload

  /** A document as transmitted: only its name and its cleaned content. */
  datatype PayloadDocument = PayloadDocument(name: string, base64: Option<string>)

  /** A user as transmitted: `validationsToSkip` is not carried over. */
  datatype PayloadUser = PayloadUser(name: string, email: Option<string>, phone: Option<string>, groups: seq<string>)

  /** The upstream payload: the request without its top-level notification options, with `flags` rebuilt. */
  datatype Payload = Payload(
    title: string,
    description: Option<string>,
    reference: Option<string>,
    language: Option<string>,
    expirationDatetime: Option<string>,
    expirationInHours: Option<int>,
    templateId: string,
    onBehalfOf: Option<string>,
    documents: seq<PayloadDocument>,
    users: seq<PayloadUser>,
    metadata: Option<map<string, Json>>,
    flags: FlagsDto,
    templateOptions: Option<map<string, Json>>)

  /** `clearBase64`: called with each document's `base64`, possibly undefined; it may throw. */
  type Base64Cleaner = Option<string> -> Result<Option<string>, CaughtError>

  /**
   * `documents.map(...)`: each document keeps its name and gets the cleaned
   * content; the first document whose cleaning throws aborts the map.
   */
  function CleanDocuments(docs: seq<DocumentDto>, clearBase64: Base64Cleaner): (r: Result<seq<PayloadDocument>, CaughtError>)
    ensures r.Success? <==> forall i :: 0 <= i < |docs| ==> clearBase64(docs[i].base64).Success?
    ensures r.Success? ==> |r.value| == |docs|
    ensures r.Success? ==> forall i :: 0 <= i < |docs| ==>
      r.value[i] == PayloadDocument(docs[i].name, clearBase64(docs[i].base64).value)
    ensures r.Failure? ==> exists k :: (0 <= k < |docs|
      && clearBase64(docs[k].base64) == Failure(r.error)
      && forall i :: 0 <= i < k ==> clearBase64(docs[i].base64).Success?)
  {
    if docs == [] then Success([])
    else
      match clearBase64(docs[0].base64)
      case Failure(e) => Failure(e)
      case Success(b) =>
        match CleanDocuments(docs[1..], clearBase64)
        case Failure(e) =>
          assert exists k :: (0 <= k < |docs[1..]|
            && clearBase64(docs[1..][k].base64) == Failure(e)
            && forall i :: 0 <= i < k ==> clearBase64(docs[1..][i].base64).Success?);
          var k :| 0 <= k < |docs[1..]|
            && clearBase64(docs[1..][k].base64) == Failure(e)
            && forall i :: 0 <= i < k ==> clearBase64(docs[1..][i].base64).Success?;
          assert forall i :: 0 <= i < k + 1 ==> clearBase64(docs[i].base64).Success? by {
            forall i | 0 <= i < k + 1 ensures clearBase64(docs[i].base64).Success? {
              if i > 0 { assert docs[i] == docs[1..][i - 1]; }
            }
          }
          assert docs[k + 1] == docs[1..][k];
          Failure(e)
        case Success(rest) =>
          Success([PayloadDocument(docs[0].name, b)] + rest)
  }

  /** `users.map(...)` for one user: name, email and groups unchanged, phone stripped. */
  function CleanUser(u: UserDto): (r: PayloadUser)
    ensures r.name == u.name && r.email == u.email && r.groups == u.groups
    ensures r.phone.Some? <==> u.phone.Some?
    ensures r.phone.Some? ==> AllDigits(r.phone.value) && r.phone.value == StripNonDigits(u.phone.value)
  {
    PayloadUser(u.name, u.email, CleanPhone(u.phone), u.groups)
  }

  /**
   * `buildPayload`: the payload for a request, or the error `clearBase64`
   * threw on the first document it could not clean.
   */
  function BuildPayload(dto: CreateContractDto, clearBase64: Base64Cleaner): (r: Result<Payload, CaughtError>)
    ensures r.Success? <==> forall i :: 0 <= i < |dto.documents| ==> clearBase64(dto.documents[i].base64).Success?
    ensures r.Failure? ==> exists k :: (0 <= k < |dto.documents|
      && clearBase64(dto.documents[k].base64) == Failure(r.error)
      && forall i :: 0 <= i < k ==> clearBase64(dto.documents[i].base64).Success?)
    // the notification options move into `flags`, replacing whatever flags the caller sent
    ensures r.Success? ==> r.value.flags == FlagsDto(dto.chosenNotificationOptions)
    // documents: same count and order, name kept, content cleaned, storageId dropped
    ensures r.Success? ==> (|r.value.documents| == |dto.documents|
      && forall i :: 0 <= i < |dto.documents| ==>
        && r.value.documents[i].name == dto.documents[i].name
        && r.value.documents[i].base64 == clearBase64(dto.documents[i].base64).value)
    // users: same count and order, phone reduced to its digits, validationsToSkip dropped
    ensures r.Success? ==> (|r.value.users| == |dto.users|
      && forall i :: 0 <= i < |dto.users| ==>
        && r.value.users[i].name == dto.users[i].name
        && r.value.users[i].email == dto.users[i].email
        && r.value.users[i].groups == dto.users[i].groups
        && (r.value.users[i].phone.Some? <==> dto.users[i].phone.Some?)
        && (r.value.users[i].phone.Some? ==>
              && r.value.users[i].phone.value == StripNonDigits(dto.users[i].phone.value)
              && AllDigits(r.value.users[i].phone.value)))
  {
    match CleanDocuments(dto.documents, clearBase64)
    case Failure(e) => Failure(e)
    case Success(documents) =>
      Success(Payload(
        dto.title, dto.description, dto.reference, dto.language,
        dto.expirationDatetime, dto.expirationInHours, dto.templateId, dto.onBehalfOf,
        documents,
        seq(|dto.users|, i requires 0 <= i < |dto.users| => CleanUser(dto.users[i])),
        dto.metadata,
        FlagsDto(dto.chosenNotificationOptions),
        dto.templateOptions))
  }

  // ---------------------------------------------------------------------------
  // The payload as a JSON object, against the spread-then-delete it comes from

  function PayloadDocumentJson(d: PayloadDocument): Json
  {
    JObject(map["name" := JString(d.name)] + Member("base64", OptString(d.base64)))
  }

  function PayloadUserJson(u: PayloadUser): Json
  {
    JObject(map["name" := JString(u.name)]
      + Member("email", OptString(u.email))
      + Member("phone", OptString(u.phone))
      + map["groups" := JStrings(u.groups)])
  }

  function DocumentsJson(ds: seq<PayloadDocument>): Json
  {
    JArray(seq(|ds|, i requires 0 <= i < |ds| => PayloadDocumentJson(ds[i])))
  }

  function UsersJson(us: seq<PayloadUser>): Json
  {
    JArray(seq(|us|, i requires 0 <= i < |us| => PayloadUserJson(us[i])))
  }

  /** One property of the payload as sent upstream; there is no `chosenNotificationOptions`. */
  function PayloadValue(p: Payload, k: Field): Option<Json>
    requires k != ChosenNotificationOptions
  {
    match k
    case Title => Some(JString(p.title))
    case Description => OptString(p.description)
    case Reference => OptString(p.reference)
    case Language => OptString(p.language)
    case ExpirationDatetime => OptString(p.expirationDatetime)
    case ExpirationInHours => OptNumber(p.expirationInHours)
    case TemplateId => Some(JString(p.templateId))
    case OnBehalfOf => OptString(p.onBehalfOf)
    case Documents => Some(DocumentsJson(p.documents))
    case Users => Some(UsersJson(p.users))
    case Metadata => OptObject(p.metadata)
    case Flags => Some(FlagsJson(p.flags))
    case TemplateOptions => OptObject(p.templateOptions)
  }

  /** The payload as the JavaScript object sent upstream. */
  function PayloadObject(p: Payload): map<Field, Option<Json>>
  {
    map k: Field | k != ChosenNotificationOptions :: PayloadValue(p, k)
  }

  /**
   * `{ ...request, documents, flags, users }` followed by
   * `delete payload.chosenNotificationOptions`.
   */
  function SpreadAndDelete(dto: CreateContractDto, documents: Json, flags: Json, users: Json): map<Field, Option<Json>>
  {
    (RequestObject(dto) + map[Documents := Some(documents), Flags := Some(flags), Users := Some(users)])
      - {ChosenNotificationOptions}
  }

  /** The pass-through fields of the payload are those of the request. */
  predicate AgreesOnPassThrough(dto: CreateContractDto, p: Payload)
  {
    && p.title == dto.title && p.description == dto.description && p.reference == dto.reference
    && p.language == dto.language && p.expirationDatetime == dto.expirationDatetime
    && p.expirationInHours == dto.expirationInHours && p.templateId == dto.templateId
    && p.onBehalfOf == dto.onBehalfOf && p.metadata == dto.metadata && p.templateOptions == dto.templateOptions
  }

  /** Property by property, an agreeing payload carries the request's value except where it was rebuilt. */
  lemma AgreeingValue(dto: CreateContractDto, p: Payload, k: Field)
    requires AgreesOnPassThrough(dto, p)
    requires k !in {ChosenNotificationOptions, Documents, Flags, Users}
    ensures PayloadValue(p, k) == RequestValue(dto, k)
  {
    match k
    case Title =>
    case Description =>
    case Reference =>
    case Language =>
    case ExpirationDatetime =>
    case ExpirationInHours =>
    case TemplateId =>
    case OnBehalfOf =>
    case Metadata =>
    case TemplateOptions =>
  }

  /** A payload that agrees with the request on every pass-through field is the request spread and trimmed. */
  lemma SpreadOfAgreeingPayload(dto: CreateContractDto, p: Payload)
    requires AgreesOnPassThrough(dto, p)
    ensures PayloadObject(p) == SpreadAndDelete(dto, DocumentsJson(p.documents), FlagsJson(p.flags), UsersJson(p.users))
  {
    var lhs := PayloadObject(p);
    var rhs := SpreadAndDelete(dto, DocumentsJson(p.documents), FlagsJson(p.flags), UsersJson(p.users));
    assert lhs.Keys == rhs.Keys;
    forall k | k in lhs ensures lhs[k] == rhs[k] {
      if k !in {Documents, Flags, Users} {
        AgreeingValue(dto, p, k);
      }
    }
  }

  /**
   * The payload built field by field is exactly the request spread into a new
   * object with the three rebuilt members and without the top-level options.
   */
  lemma PayloadIsSpreadWithoutOptions(dto: CreateContractDto, clearBase64: Base64Cleaner)
    requires BuildPayload(dto, clearBase64).Success?
    ensures var p := BuildPayload(dto, clearBase64).value;
      PayloadObject(p) == SpreadAndDelete(dto, DocumentsJson(p.documents), FlagsJson(p.flags), UsersJson(p.users))
  {
    SpreadOfAgreeingPayload(dto, BuildPayload(dto, clearBase64).value);
  }

  /**
   * What the caller sees of the reshaping: no top-level notification options,
   * `flags` holding exactly the request's top-level value (absent included),
   * and every other property of the request copied unchanged.
   */
  lemma PayloadMembers(dto: CreateContractDto, clearBase64: Base64Cleaner)
    requires BuildPayload(dto, clearBase64).Success?
    ensures var obj := PayloadObject(BuildPayload(dto, clearBase64).value);
      && ChosenNotificationOptions !in obj
      && obj[Flags] == Some(JObject(Member("chosenNotificationOptions", OptStrings(dto.chosenNotificationOptions))))
      && forall k :: k in RequestObject(dto) && k !in {ChosenNotificationOptions, Documents, Flags, Users} ==>
           k in obj && obj[k] == RequestObject(dto)[k]
  {
    PayloadIsSpreadWithoutOptions(dto, clearBase64);
  }

  /**
   * A document's `storageId` and a user's `validationsToSkip` reach the
   * request object but never the payload sent upstream.
   */
  lemma DroppedMembers(dto: CreateContractDto, clearBase64: Base64Cleaner, i: nat)
    requires BuildPayload(dto, clearBase64).Success?
    ensures var p := BuildPayload(dto, clearBase64).value;
      && (i < |dto.documents| ==>
            && (dto.documents[i].storageId.Some? ==> "storageId" in DocumentDtoJson(dto.documents[i]).members)
            && "storageId" !in PayloadDocumentJson(p.documents[i]).members)
      && (i < |dto.users| ==>
            && (dto.users[i].validationsToSkip.Some? ==> "validationsToSkip" in UserDtoJson(dto.users[i]).members)
            && "validationsToSkip" !in PayloadUserJson(p.users[i]).members)
  {
  }

  /** Options given only inside `flags` are lost: the rebuilt `flags` takes the top-level value. */
  lemma FlagsOptionsOverwritten(dto: CreateContractDto, clearBase64: Base64Cleaner, options: seq<string>)
    requires dto.flags == Some(FlagsDto(Some(options))) && dto.chosenNotificationOptions.None?
    requires BuildPayload(dto, clearBase64).Success?
    ensures BuildPayload(dto, clearBase64).value.flags.chosenNotificationOptions.None?
    ensures "chosenNotificationOptions" !in PayloadObject(BuildPayload(dto, clearBase64).value)[Flags].value.members
  {
  }

  /** Every phone in a payload is a fixed point of the cleaning: rebuilding does not change it. */
  lemma PayloadPhonesStable(dto: CreateContractDto, clearBase64: Base64Cleaner, i: nat)
    requires BuildPayload(dto, clearBase64).Success?
    requires i < |dto.users|
    ensures var u := BuildPayload(dto, clearBase64).value.users[i];
      CleanPhone(u.phone) == u.phone
  {
    var u := BuildPayload(dto, clearBase64).value.users[i];
    if u.phone.Some? {
      StripFixedExactlyOnDigits(u.phone.value);
    }
  }

  /** The phone of the service's payload test, as a whole. */
  lemma TestPhoneCleans()
    ensures CleanPhone(Some("+51 931 022 090")) == Some("51931022090")
  {
    PhoneExample("+51 931 022 090");
  }

  /** The request of the service's payload test; the test leaves `templateId` out, so it is a parameter. */
  function PayloadTestRequest(templateId: string): CreateContractDto
  {
    CreateContractDto(
      "Test Contract", None, Some("ABC123"), None, Some(["email+whatsapp"]), None, None, templateId, None,
      [DocumentDto("file.pdf", Some("data:application/pdf;base64,ABCDEF123"), None)],
      [UserDto("Javier", Some("javier@example.com"), Some("+51 931 022 090"), ["signers"], None)],
      None, None, None)
  }

  /** The service's payload test, given the document content the test expects `clearBase64` to produce. */
  lemma BuildPayloadExample(templateId: string, clearBase64: Base64Cleaner)
    requires clearBase64(Some("data:application/pdf;base64,ABCDEF123")) == Success(Some("ABCDEF123"))
    ensures var r := BuildPayload(PayloadTestRequest(templateId), clearBase64);
      && r.Success?
      && r.value.flags == FlagsDto(Some(["email+whatsapp"]))
      && r.value.documents[0].base64 == Some("ABCDEF123")
      && r.value.users[0].phone == Some("51931022090")
      && ChosenNotificationOptions !in PayloadObject(r.value)
  {
    TestPhoneCleans();
  }

  // ---------------------------------------------------------------------------
  // The gateway

  const ApiKeyVar: string := "API_KEY_KEYNUA"
  const ApiTokenVar: string := "API_TOKEN_KEYNUA"
  const BaseUrlVar: string := "BASE_URL_KEYNUA"
  const JsonContentType: string := "application/json"
  const KeynuaContext: string := "Keynua API"
  const FindFailedMessage: string := "Error finding contract in Keynua"
  const CreateFailedMessage: string := "Error creating contract in Keynua"
  const FoundMessage: string := "Contract found successfully"
  const CreatedMessage: string := "Contract created successfully"
  const StatusOk: int := 200
  const StatusCreated: int := 201

  datatype KeynuaConfig = KeynuaConfig(apiKey: string, apiToken: string, baseUrl: string)

  /** The three `getOrThrow` reads: `None` is the startup failure when a variable is missing. */
  function LoadConfig(env: map<string, string>): (r: Option<KeynuaConfig>)
    ensures r.Some? <==> ApiKeyVar in env && ApiTokenVar in env && BaseUrlVar in env
    ensures r.Some? ==> (r.value.apiKey == env[ApiKeyVar]
                     && r.value.apiToken == env[ApiTokenVar]
                     && r.value.baseUrl == env[BaseUrlVar])
  {
    if ApiKeyVar in env && ApiTokenVar in env && BaseUrlVar in env
    then Some(KeynuaConfig(env[ApiKeyVar], env[ApiTokenVar], env[BaseUrlVar]))
    else None
  }

  /** The header set every call carries. */
  function KeynuaHeaders(apiKey: string, apiToken: string): map<string, string>
  {
    map["x-api-key" := apiKey, "authorization" := apiToken, "Content-Type" := JsonContentType]
  }

  datatype Verb = Get | Put

  /** An outbound request: verb, target, headers and JSON body. */
  datatype HttpRequest = HttpRequest(verb: Verb, url: string, headers: map<string, string>, body: Option<Payload>)

  /** The HTTP client's answer: the deserialised body of a 2xx reply, or what it threw. */
  type Reply = Result<Json, CaughtError>

  /** What an operation gives back: the success record, or what the error translator logged and threw. */
  datatype ServiceOutcome =
    | Returned(data: Json, message: string, statusCode: int)
    | Threw(handled: Handled)

  class ContractsService {
    const apiKey: string
    const apiToken: string
    const baseUrl: string
    const headers: map<string, string>

    /** The configuration fixed at construction: the header set never changes afterwards. */
    ghost predicate Valid()
    {
      headers == KeynuaHeaders(apiKey, apiToken)
    }

    constructor (config: KeynuaConfig)
      ensures Valid()
      ensures apiKey == config.apiKey && apiToken == config.apiToken && baseUrl == config.baseUrl
      ensures headers == map["x-api-key" := config.apiKey,
                             "authorization" := config.apiToken,
                             "Content-Type" := JsonContentType]
    {
      apiKey := config.apiKey;
      apiToken := config.apiToken;
      baseUrl := config.baseUrl;
      headers := KeynuaHeaders(config.apiKey, config.apiToken);
    }

    /** GET `{baseUrl}/{id}`: the id is the whole of the target after the base URL and a slash. */
    function FindOneRequest(id: string): (req: HttpRequest)
      ensures req.verb == Get && req.headers == headers && req.body.None?
      ensures |req.url| == |baseUrl| + 1 + |id|
      ensures req.url[..|baseUrl|] == baseUrl && req.url[|baseUrl|] == '/' && req.url[|baseUrl| + 1..] == id
    {
      HttpRequest(Get, baseUrl + "/" + id, headers, None)
    }

    /** PUT `{baseUrl}` with the payload as body. */
    function CreateRequest(payload: Payload): (req: HttpRequest)
      ensures req.verb == Put && req.url == baseUrl && req.headers == headers && req.body == Some(payload)
    {
      HttpRequest(Put, baseUrl, headers, Some(payload))
    }

    /** `findOne`: the contract with status 200, or the translated failure. */
    function FindOne(id: string, send: HttpRequest -> Reply): (r: ServiceOutcome)
      ensures r.Returned? <==> send(FindOneRequest(id)).Success?
      ensures r.Returned? ==> (r.data == send(FindOneRequest(id)).value
                           && r.message == FoundMessage && r.statusCode == StatusOk)
      ensures r.Threw? ==> r.handled == HandleAxiosError(send(FindOneRequest(id)).error, KeynuaContext, Some(FindFailedMessage))
      ensures r.Threw? ==> ClientBody(r.handled.exception)["message"] == JString(FindFailedMessage)
    {
      match send(FindOneRequest(id))
      case Success(data) => Returned(data, FoundMessage, StatusOk)
      case Failure(error) => Threw(HandleAxiosError(error, KeynuaContext, Some(FindFailedMessage)))
    }

    /**
     * `create`: builds the payload, PUTs it, and returns the contract with
     * status 201; a throw from building the payload or from the call goes to
     * the error translator, and no request is made when building fails.
     */
    function Create(dto: CreateContractDto, clearBase64: Base64Cleaner, send: HttpRequest -> Reply): (r: ServiceOutcome)
      ensures r.Returned? <==>
        BuildPayload(dto, clearBase64).Success? && send(CreateRequest(BuildPayload(dto, clearBase64).value)).Success?
      ensures r.Returned? ==>
        && r.data == send(CreateRequest(BuildPayload(dto, clearBase64).value)).value
        && r.message == CreatedMessage && r.statusCode == StatusCreated
      ensures BuildPayload(dto, clearBase64).Failure? ==>
        r == Threw(HandleAxiosError(BuildPayload(dto, clearBase64).error, KeynuaContext, Some(CreateFailedMessage)))
      ensures BuildPayload(dto, clearBase64).Success? && r.Threw? ==>
        r.handled == HandleAxiosError(send(CreateRequest(BuildPayload(dto, clearBase64).value)).error,
                                      KeynuaContext, Some(CreateFailedMessage))
      ensures r.Threw? ==> ClientBody(r.handled.exception)["message"] == JString(CreateFailedMessage)
    {
      match BuildPayload(dto, clearBase64)
      case Failure(error) => Threw(HandleAxiosError(error, KeynuaContext, Some(CreateFailedMessage)))
      case Success(payload) =>
        match send(CreateRequest(payload))
        case Success(data) => Returned(data, CreatedMessage, StatusCreated)
        case Failure(error) => Threw(HandleAxiosError(error, KeynuaContext, Some(CreateFailedMessage)))
    }
  }

  /** Every request a constructed service issues carries the key, the token and the JSON content type. */
  lemma RequestsCarryFixedHeaders(svc: ContractsService, id: string, payload: Payload)
    requires svc.Valid()
    ensures var h := svc.FindOneRequest(id).headers;
      h == svc.CreateRequest(payload).headers
      && h.Keys == {"x-api-key", "authorization", "Content-Type"}
      && h["x-api-key"] == svc.apiKey && h["authorization"] == svc.apiToken
      && h["Content-Type"] == "application/json"
  {
  }

  /** Distinct ids are looked up at distinct targets. */
  lemma FindOneTargetsDistinct(svc: ContractsService, id1: string, id2: string)
    requires id1 != id2
    ensures svc.FindOneRequest(id1).url != svc.FindOneRequest(id2).url
  {
    var u1 := svc.FindOneRequest(id1).url;
    var u2 := svc.FindOneRequest(id2).url;
    assert u1[|svc.baseUrl| + 1..] == id1;
    assert u2[|svc.baseUrl| + 1..] == id2;
  }

  /**
   * Whatever goes wrong in either operation, the caller gets 500 with that
   * operation's message, and failures of the same kind give the same body:
   * only the log record tells which failure it was.
   */
  lemma FailuresAreOpaque(svc: ContractsService, id: string, dto: CreateContractDto, clearBase64: Base64Cleaner,
                          send1: HttpRequest -> Reply, send2: HttpRequest -> Reply)
    ensures var f := svc.FindOne(id, send1);
      f.Threw? ==> (ClientBody(f.handled.exception)["statusCode"] == JNumber(500)
                   && ClientBody(f.handled.exception)["message"] == JString(FindFailedMessage))
    ensures var c := svc.Create(dto, clearBase64, send1);
      c.Threw? ==> (ClientBody(c.handled.exception)["statusCode"] == JNumber(500)
                   && ClientBody(c.handled.exception)["message"] == JString(CreateFailedMessage))
    ensures var f1 := svc.FindOne(id, send1);
      var f2 := svc.FindOne(id, send2);
      f1.Threw? && f2.Threw? && f1.handled.exception.cause.Some? == f2.handled.exception.cause.Some? ==>
        ClientBody(f1.handled.exception) == ClientBody(f2.handled.exception)
    ensures var c1 := svc.Create(dto, clearBase64, send1);
      var c2 := svc.Create(dto, clearBase64, send2);
      c1.Threw? && c2.Threw? && c1.handled.exception.cause.Some? == c2.handled.exception.cause.Some? ==>
        ClientBody(c1.handled.exception) == ClientBody(c2.handled.exception)
  {
  }

  /**
   * The service's failure test: the PUT rejects with a bare "Request failed"
   * client error. The exception is built with an options object, so the
   * caller's body has no `error` member.
   */
  lemma CreateRequestFailedExample(svc: ContractsService, dto: CreateContractDto, clearBase64: Base64Cleaner,
                                   send: HttpRequest -> Reply)
    requires BuildPayload(dto, clearBase64).Success?
    requires send(svc.CreateRequest(BuildPayload(dto, clearBase64).value)) == Failure(AxiosError("Request failed", None))
    ensures var r := svc.Create(dto, clearBase64, send);
      && r.Threw?
      && r.handled.log.text == "Error response from Keynua API"
      && r.handled.log.detail == ResponseDetail(None, "Request failed", None)
      && r.handled.exception == InternalServerError("Error creating contract in Keynua", None, Some(AxiosError("Request failed", None)))
      && ClientBody(r.handled.exception) == map["statusCode" := JNumber(500),
                                                "message" := JString("Error creating contract in Keynua")]
  {
  }
}
