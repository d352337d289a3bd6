/**
 * `StaticConsumeContext`: the consume context of a message read by the binary serializer.
 * Everything it knows about the message comes from an array of named headers: identifiers
 * and addresses (read lazily and remembered), and the list of message-type URNs the message
 * supports, which decides `HasMessageType` and `TryGetMessage`.
 */
module StaticConsume {
  import opened Common
  import opened TypeMetadata

  /** A URI, by its string form (`Uri.ToString()`). */
  type Uri = string

  /** A `DateTime`, by its ticks. */
  type DateTime = int

  /** `HostInfo`, the header object that describes the sending host. */
  datatype HostInfo = HostInfo(machineName: string, processName: string)

  /** A header value, by the runtime type the conversions test for. */
  datatype HeaderValue =
    | Text(s: string)
    | UriValue(uri: Uri)
    | GuidValue(guid: Guid)
    | DateTimeValue(time: DateTime)
    | HostValue(host: HostInfo)
    | OtherValue(description: string)

  /** A binary-serializer `Header`: a name and a value that may be null. */
  datatype Header = Header(name: string, value: Option<HeaderValue>)

  /**
   * The framework conversions the header accessors rely on: `new Guid(s)`, `new Uri(s)` and
   * `DateTime.Parse(s)` (None where they throw a format exception), and `ToString()` of a
   * value that is neither a string nor a URI.
   */
  datatype Conversions = Conversions(
    parseGuid: string -> Option<Guid>,
    parseUri: string -> Option<Uri>,
    parseDateTime: string -> Option<DateTime>,
    display: HeaderValue -> string)

  // The header names are constants of `BinaryMessageSerializer`, which is not part of this
  // model; these stand for them. Only their being distinct matters.
  const MessageIdKey: string := "MessageId"
  const RequestIdKey: string := "RequestId"
  const CorrelationIdKey: string := "CorrelationId"
  const ConversationIdKey: string := "ConversationId"
  const InitiatorIdKey: string := "InitiatorId"
  const ExpirationTimeKey: string := "ExpirationTime"
  const SourceAddressKey: string := "SourceAddress"
  const DestinationAddressKey: string := "DestinationAddress"
  const ResponseAddressKey: string := "ResponseAddress"
  const FaultAddressKey: string := "FaultAddress"
  const SentTimeKey: string := "SentTime"
  const HostInfoKey: string := "HostInfo"
  const MessageTypeKey: string := "MessageType"
  const PolymorphicMessageTypesKey: string := "PolymorphicMessageTypes"

  // ---------------------------------------------------------------------------------------
  // Header lookup and conversions
  // ---------------------------------------------------------------------------------------

  /** The index of the first header called `name`, or `|headers|` when there is none. */
  function FirstMatch(headers: seq<Header>, name: string): (i: nat)
    ensures i <= |headers|
    ensures forall j :: 0 <= j < i ==> headers[j].name != name
    ensures i < |headers| ==> headers[i].name == name
  {
    if headers == [] then 0
    else if headers[0].name == name then 0
    else 1 + FirstMatch(headers[1..], name)
  }

  /** `GetHeader`: the value of the first header called `name` (`Where … FirstOrDefault`), null when there is none. */
  function GetHeader(headers: seq<Header>, name: string): Option<HeaderValue> {
    var i := FirstMatch(headers, name);
    if i < |headers| then headers[i].value else None
  }

  /** `GetHeader` is the value of the first header with the name, and null exactly when no header has it or that value is null. */
  lemma GetHeaderIsFirstMatch(headers: seq<Header>, name: string)
    ensures (forall i :: 0 <= i < |headers| ==> headers[i].name != name) ==> GetHeader(headers, name).None?
    ensures forall i :: (0 <= i < |headers| && headers[i].name == name
                         && (forall j :: 0 <= j < i ==> headers[j].name != name)) ==>
              GetHeader(headers, name) == headers[i].value
  {
  }

  /** Headers before the first match that carry other names, and every header after it, do not matter. */
  lemma {:induction false} GetHeaderSkipsOthers(a: seq<Header>, h: Header, b: seq<Header>)
    requires forall i :: 0 <= i < |a| ==> a[i].name != h.name
    ensures GetHeader(a + [h] + b, h.name) == h.value
  {
    var hs := a + [h] + b;
    assert hs[|a|] == h;
    assert forall j :: 0 <= j < |a| ==> hs[j] == a[j];
    assert FirstMatch(hs, h.name) == |a|;
  }

  /** `GetHeaderString`: a string as is, a URI by its string form, any other value by `ToString()`. */
  function GetHeaderString(headers: seq<Header>, name: string, conv: Conversions): (r: Option<string>)
    ensures r.None? <==> GetHeader(headers, name).None?
    ensures var v := GetHeader(headers, name);
      v.Some? ==> r == Some(if v.value.Text? then v.value.s
                            else if v.value.UriValue? then v.value.uri
                            else conv.display(v.value))
  {
    match GetHeader(headers, name)
    case None => None
    case Some(Text(s)) => Some(s)
    case Some(UriValue(u)) => Some(u)
    case Some(v) => Some(conv.display(v))
  }

  /** `GetHeaderUri`: a URI as is, a string parsed as a URI, anything else (or a parse failure) null. */
  function GetHeaderUri(headers: seq<Header>, name: string, conv: Conversions): Option<Uri> {
    match GetHeader(headers, name)
    case Some(UriValue(u)) => Some(u)
    case Some(Text(s)) => conv.parseUri(s)
    case _ => None
  }

  /** `GetHeaderGuid`: a Guid as is, a string parsed as a Guid, anything else (or a parse failure) null. */
  function GetHeaderGuid(headers: seq<Header>, name: string, conv: Conversions): Option<Guid> {
    match GetHeader(headers, name)
    case Some(GuidValue(g)) => Some(g)
    case Some(Text(s)) => conv.parseGuid(s)
    case _ => None
  }

  /** `GetHeaderDateTime`: a DateTime as is, a string parsed as one, anything else (or a parse failure) null. */
  function GetHeaderDateTime(headers: seq<Header>, name: string, conv: Conversions): Option<DateTime> {
    match GetHeader(headers, name)
    case Some(DateTimeValue(d)) => Some(d)
    case Some(Text(s)) => conv.parseDateTime(s)
    case _ => None
  }

  /** `GetHeaderObject<HostInfo>`: the value when it is a `HostInfo`, null otherwise. */
  function GetHeaderHost(headers: seq<Header>, name: string): Option<HostInfo> {
    match GetHeader(headers, name)
    case Some(HostValue(h)) => Some(h)
    case _ => None
  }

  /**
   * The Guid read from a header is the first header with that name, converted: nothing when
   * that header is missing or holds a value that is neither a Guid nor a string.
   */
  lemma HeaderGuidOfFirstMatch(a: seq<Header>, h: Header, b: seq<Header>, conv: Conversions)
    requires forall i :: 0 <= i < |a| ==> a[i].name != h.name
    ensures var g := GetHeaderGuid(a + [h] + b, h.name, conv);
      (h.value.None? ==> g.None?)
      && (h.value.Some? && h.value.value.GuidValue? ==> g == Some(h.value.value.guid))
      && (h.value.Some? && h.value.value.Text? ==> g == conv.parseGuid(h.value.value.s))
      && (h.value.Some? && !h.value.value.GuidValue? && !h.value.value.Text? ==> g.None?)
  {
    GetHeaderSkipsOthers(a, h, b);
  }

  /** The string read from a header is the first header with that name: a string as is, a URI by its string form, anything else by `ToString()`. */
  lemma HeaderStringOfFirstMatch(a: seq<Header>, h: Header, b: seq<Header>, conv: Conversions)
    requires forall i :: 0 <= i < |a| ==> a[i].name != h.name
    ensures var s := GetHeaderString(a + [h] + b, h.name, conv);
      (h.value.None? ==> s.None?)
      && (h.value.Some? && h.value.value.Text? ==> s == Some(h.value.value.s))
      && (h.value.Some? && h.value.value.UriValue? ==> s == Some(h.value.value.uri))
      && (h.value.Some? && !h.value.value.Text? && !h.value.value.UriValue? ==> s == Some(conv.display(h.value.value)))
  {
    GetHeaderSkipsOthers(a, h, b);
  }

  /** The DateTime read from a header follows the rule for Guids, with DateTimes in their place. */
  lemma HeaderDateTimeOfFirstMatch(a: seq<Header>, h: Header, b: seq<Header>, conv: Conversions)
    requires forall i :: 0 <= i < |a| ==> a[i].name != h.name
    ensures var d := GetHeaderDateTime(a + [h] + b, h.name, conv);
      (h.value.None? ==> d.None?)
      && (h.value.Some? && h.value.value.DateTimeValue? ==> d == Some(h.value.value.time))
      && (h.value.Some? && h.value.value.Text? ==> d == conv.parseDateTime(h.value.value.s))
      && (h.value.Some? && !h.value.value.DateTimeValue? && !h.value.value.Text? ==> d.None?)
  {
    GetHeaderSkipsOthers(a, h, b);
  }

  /** The host read from a header is the first header with that name when it holds a `HostInfo`, and null otherwise; a string is not parsed. */
  lemma HeaderHostOfFirstMatch(a: seq<Header>, h: Header, b: seq<Header>)
    requires forall i :: 0 <= i < |a| ==> a[i].name != h.name
    ensures var o := GetHeaderHost(a + [h] + b, h.name);
      (h.value.Some? && h.value.value.HostValue? ==> o == Some(h.value.value.host))
      && (h.value.None? || !h.value.value.HostValue? ==> o.None?)
  {
    GetHeaderSkipsOthers(a, h, b);
  }

  /** The URI read from a header follows the same rule, with URIs in place of Guids. */
  lemma HeaderUriOfFirstMatch(a: seq<Header>, h: Header, b: seq<Header>, conv: Conversions)
    requires forall i :: 0 <= i < |a| ==> a[i].name != h.name
    ensures var u := GetHeaderUri(a + [h] + b, h.name, conv);
      (h.value.None? ==> u.None?)
      && (h.value.Some? && h.value.value.UriValue? ==> u == Some(h.value.value.uri))
      && (h.value.Some? && h.value.value.Text? ==> u == conv.parseUri(h.value.value.s))
      && (h.value.Some? && !h.value.value.UriValue? && !h.value.value.Text? ==> u.None?)
  {
    GetHeaderSkipsOthers(a, h, b);
  }

  // ---------------------------------------------------------------------------------------
  // The supported message types
  // ---------------------------------------------------------------------------------------

  /** `String.Split(';')`: the parts between separators, empty ones included. */
  function Split(s: string): (parts: seq<string>)
    ensures |parts| >= 1
    ensures forall i :: 0 <= i < |parts| ==> ';' !in parts[i]
    decreases |s|
  {
    if s == [] then [""]
    else if s[0] == ';' then [""] + Split(s[1..])
    else
      var rest := Split(s[1..]);
      [[s[0]] + rest[0]] + rest[1..]
  }

  /** `String.Join(";", parts)`. */
  function Join(parts: seq<string>): string
    requires |parts| >= 1
    decreases |parts|
  {
    if |parts| == 1 then parts[0] else parts[0] + ";" + Join(parts[1..])
  }

  /** Splitting loses nothing: joining the parts with `;` gives back the header. */
  lemma {:induction false} JoinSplit(s: string)
    ensures Join(Split(s)) == s
    decreases |s|
  {
    if s != [] {
      JoinSplit(s[1..]);
      var rest := Split(s[1..]);
      if s[0] == ';' {
        assert Split(s)[1..] == rest;
        assert s == [';'] + s[1..];
      } else {
        var parts := Split(s);
        assert parts[0] == [s[0]] + rest[0];
        if |rest| == 1 {
          assert s == [s[0]] + rest[0];
        } else {
          assert parts[1..] == rest[1..];
          assert s == [s[0]] + (rest[0] + ";" + Join(rest[1..]));
        }
      }
    }
  }

  /** Splitting a header without `;` gives the header as the only part. */
  lemma {:induction false} SplitWithoutSeparator(s: string)
    requires ';' !in s
    ensures Split(s) == [s]
    decreases |s|
  {
    if s != [] {
      SplitWithoutSeparator(s[1..]);
      assert s == [s[0]] + s[1..];
    }
  }

  function AsPresent(parts: seq<string>): (r: seq<Option<string>>)
    ensures |r| == |parts| && forall i :: 0 <= i < |parts| ==> r[i] == Some(parts[i])
  {
    if parts == [] then [] else [Some(parts[0])] + AsPresent(parts[1..])
  }

  /**
   * `GetSupportedMessageTypes`: the message-type header (null when missing) first, then the
   * parts of the polymorphic header when it is present.
   */
  function SupportedTypes(headers: seq<Header>, conv: Conversions): seq<Option<string>> {
    [GetHeaderString(headers, MessageTypeKey, conv)]
    + match GetHeaderString(headers, PolymorphicMessageTypesKey, conv)
      case None => []
      case Some(h) => AsPresent(Split(h))
  }

  /** The supported types are the message type, then the polymorphic parts, which rejoin to the header. */
  lemma SupportedMessageTypesLayout(headers: seq<Header>, conv: Conversions)
    ensures var types := SupportedTypes(headers, conv);
      var poly := GetHeaderString(headers, PolymorphicMessageTypesKey, conv);
      |types| >= 1 && types[0] == GetHeaderString(headers, MessageTypeKey, conv)
      && (poly.None? ==> |types| == 1)
      && (poly.Some? ==> |types| == 1 + |Split(poly.value)|
                         && (forall i :: 1 <= i < |types| ==> types[i] == Some(Split(poly.value)[i - 1]))
                         && Join(Split(poly.value)) == poly.value)
  {
    var poly := GetHeaderString(headers, PolymorphicMessageTypesKey, conv);
    if poly.Some? {
      JoinSplit(poly.value);
    }
  }

  /** `OrdinalIgnoreCase` compares characters after mapping each to upper case; the model maps ASCII letters. */
  function UpperChar(c: char): char {
    if 'a' <= c <= 'z' then (c as int - 'a' as int + 'A' as int) as char else c
  }

  function Upper(s: string): (u: string)
    ensures |u| == |s| && forall i :: 0 <= i < |s| ==> u[i] == UpperChar(s[i])
  {
    if s == [] then [] else [UpperChar(s[0])] + Upper(s[1..])
  }

  predicate EqualsIgnoreCase(a: string, b: string) {
    Upper(a) == Upper(b)
  }

  predicate UrnMatches(urn: string, candidate: Option<string>, ignoreCase: bool) {
    candidate.Some? && (if ignoreCase then EqualsIgnoreCase(urn, candidate.value) else urn == candidate.value)
  }

  /** `Any` over the supported types: some entry equals the URN, ordinally or ignoring case. */
  function AnySupported(types: seq<Option<string>>, urn: string, ignoreCase: bool): (r: bool)
    ensures r <==> exists i :: 0 <= i < |types| && UrnMatches(urn, types[i], ignoreCase)
  {
    if types == [] then false
    else UrnMatches(urn, types[0], ignoreCase) || AnySupported(types[1..], urn, ignoreCase)
  }

  /** A URN supported exactly is also supported ignoring case, so `TryGetMessage` never finds what `HasMessageType` denies on a fresh cache. */
  lemma ExactSupportImpliesCaseInsensitive(types: seq<Option<string>>, urn: string)
    ensures AnySupported(types, urn, false) ==> AnySupported(types, urn, true)
  {
    if AnySupported(types, urn, false) {
      var i :| 0 <= i < |types| && UrnMatches(urn, types[i], false);
      assert UrnMatches(urn, types[i], true);
    }
  }

  /** Upper-casing works character by character, so it distributes over concatenation. */
  lemma {:induction false} UpperConcat(a: string, b: string)
    ensures Upper(a + b) == Upper(a) + Upper(b)
  {
    var u, ua, ub := Upper(a + b), Upper(a), Upper(b);
    forall i | 0 <= i < |u|
      ensures u[i] == (ua + ub)[i]
    {
      if i < |a| {
        assert (a + b)[i] == a[i] && (ua + ub)[i] == ua[i];
      } else {
        assert (a + b)[i] == b[i - |a|] && (ua + ub)[i] == ub[i - |a|];
      }
    }
    assert u == ua + ub;
  }

  /** Matching ignoring case is strictly weaker: URNs that differ only in the case of a letter match one way and not the other. */
  lemma CaseOnlyDifferenceMatchesIgnoringCase(prefix: string)
    ensures AnySupported([Some(prefix + "b")], prefix + "B", true)
    ensures !AnySupported([Some(prefix + "b")], prefix + "B", false)
  {
    UpperConcat(prefix, "b");
    UpperConcat(prefix, "B");
    assert Upper("b") == "B" == Upper("B");
    assert UrnMatches(prefix + "B", Some(prefix + "b"), true);
    assert (prefix + "b")[|prefix|] != (prefix + "B")[|prefix|];
  }

  // ---------------------------------------------------------------------------------------
  // The context object
  // ---------------------------------------------------------------------------------------

  /** `MessageConsumeContext<T>`: the typed view of a context for message type `T`. */
  class MessageConsumeContext {
    const context: StaticConsumeContext
    const messageType: TypeInfo

    constructor (context: StaticConsumeContext, messageType: TypeInfo)
      ensures this.context == context && this.messageType == messageType
    {
      this.context := context;
      this.messageType := messageType;
    }
  }

  /** The cache of `TryGetMessage`: a context of `owner` for `t` only when `t` matches exactly and the message is a `t`; null only when it does not match. */
  ghost predicate CacheFits(m: map<TypeInfo, Option<MessageConsumeContext>>, owner: StaticConsumeContext,
                            supported: seq<Option<string>>, instanceOf: set<TypeInfo>)
  {
    (forall t :: t in m && m[t].Some? ==>
       m[t].value.context == owner && m[t].value.messageType == t
       && AnySupported(supported, MessageUrn(t), false) && t in instanceOf)
    && (forall t :: t in m && m[t].None? ==> !AnySupported(supported, MessageUrn(t), false))
  }

  lemma CacheFitsUpdate(m: map<TypeInfo, Option<MessageConsumeContext>>, owner: StaticConsumeContext,
                        supported: seq<Option<string>>, instanceOf: set<TypeInfo>,
                        t: TypeInfo, v: Option<MessageConsumeContext>)
    requires CacheFits(m, owner, supported, instanceOf)
    requires v.Some? ==> v.value.context == owner && v.value.messageType == t
                         && AnySupported(supported, MessageUrn(t), false) && t in instanceOf
    requires v.None? ==> !AnySupported(supported, MessageUrn(t), false)
    ensures CacheFits(m[t := v], owner, supported, instanceOf)
  {
  }

  class StaticConsumeContext {
    const headers: seq<Header>
    const conv: Conversions
    /** The message types `T` for which the deserialized message `is T`. */
    const instanceOf: set<TypeInfo>
    /** `_supportedTypes`, computed once by the constructor. */
    const supportedTypes: seq<Option<string>>
    /** `_messageTypes`: a cached context per type, or null for a type known to be unsupported. */
    var messageTypes: map<TypeInfo, Option<MessageConsumeContext>>

    var messageId: Option<Guid>
    var requestId: Option<Guid>
    var correlationId: Option<Guid>
    var conversationId: Option<Guid>
    var initiatorId: Option<Guid>
    var sourceAddress: Option<Uri>
    var destinationAddress: Option<Uri>
    var responseAddress: Option<Uri>
    var faultAddress: Option<Uri>
    var sentTime: Option<DateTime>
    var host: Option<HostInfo>

    /** A memo field is either not yet filled or holds what reading its header gives. */
    static ghost predicate Memo<T>(field: Option<T>, computed: Option<T>) {
      field.None? || field == computed
    }

    /** An exact (case-sensitive) match among the supported types, as `TryGetMessage` tests it. */
    predicate SupportsExactly(t: TypeInfo) {
      AnySupported(supportedTypes, MessageUrn(t), false)
    }

    ghost predicate Valid()
      reads this
    {
      supportedTypes == SupportedTypes(headers, conv) && MemosValid() && CacheValid()
    }

    ghost predicate MemosValid()
      reads this`messageId, this`requestId, this`correlationId, this`conversationId, this`initiatorId,
            this`sourceAddress, this`destinationAddress, this`responseAddress, this`faultAddress,
            this`sentTime, this`host
    {
      Memo(messageId, GetHeaderGuid(headers, MessageIdKey, conv))
      && Memo(requestId, GetHeaderGuid(headers, RequestIdKey, conv))
      && Memo(correlationId, GetHeaderGuid(headers, CorrelationIdKey, conv))
      && Memo(conversationId, GetHeaderGuid(headers, ConversationIdKey, conv))
      && Memo(initiatorId, GetHeaderGuid(headers, InitiatorIdKey, conv))
      && Memo(sourceAddress, GetHeaderUri(headers, SourceAddressKey, conv))
      && Memo(destinationAddress, GetHeaderUri(headers, DestinationAddressKey, conv))
      && Memo(responseAddress, GetHeaderUri(headers, ResponseAddressKey, conv))
      && Memo(faultAddress, GetHeaderUri(headers, FaultAddressKey, conv))
      && Memo(sentTime, GetHeaderDateTime(headers, SentTimeKey, conv))
      && Memo(host, GetHeaderHost(headers, HostInfoKey))
    }

    /** Every cached context belongs to this context and its type, and the cache agrees with the exact URN match. */
    ghost predicate CacheValid()
      reads this`messageTypes
    {
      CacheFits(messageTypes, this, supportedTypes, instanceOf)
    }

    constructor (headers: seq<Header>, conv: Conversions, instanceOf: set<TypeInfo>)
      ensures Valid()
      ensures this.headers == headers && this.conv == conv && this.instanceOf == instanceOf
      ensures messageTypes == map[]
      ensures messageId.None? && requestId.None? && correlationId.None? && conversationId.None? && initiatorId.None?
      ensures sourceAddress.None? && destinationAddress.None? && responseAddress.None? && faultAddress.None?
      ensures sentTime.None? && host.None?
    {
      this.headers := headers;
      this.conv := conv;
      this.instanceOf := instanceOf;
      supportedTypes := SupportedTypes(headers, conv);
      messageTypes := map[];
      messageId, requestId, correlationId, conversationId, initiatorId := None, None, None, None, None;
      sourceAddress, destinationAddress, responseAddress, faultAddress := None, None, None, None;
      sentTime, host := None, None;
    }

    /** `HasMessageType`: the cached answer when there is one, otherwise a case-insensitive URN match; the cache is not written. */
    method HasMessageType(t: TypeInfo) returns (r: bool)
      ensures t in messageTypes ==> r == messageTypes[t].Some?
      ensures t !in messageTypes ==>
        (r <==> exists i :: 0 <= i < |supportedTypes| && UrnMatches(MessageUrn(t), supportedTypes[i], true))
    {
      if t in messageTypes {
        return messageTypes[t].Some?;
      }
      r := AnySupported(supportedTypes, MessageUrn(t), true);
    }

    /**
     * `TryGetMessage<T>`: the cached answer when there is one; otherwise a case-sensitive URN
     * match. A match whose message is a `T` caches and returns a new typed context; a match
     * whose message is not a `T` returns false and caches nothing; no match caches null.
     */
    method TryGetMessage(t: TypeInfo) returns (found: bool, message: Option<MessageConsumeContext>)
      requires Valid()
      modifies this`messageTypes
      ensures Valid()
      ensures found <==> message.Some?
      ensures found ==> message.value.context == this && message.value.messageType == t
      ensures t in old(messageTypes) ==> message == old(messageTypes)[t] && messageTypes == old(messageTypes)
      ensures t !in old(messageTypes) && SupportsExactly(t) && t in instanceOf ==>
        message.Some? && fresh(message.value) && messageTypes == old(messageTypes)[t := message]
      ensures t !in old(messageTypes) && SupportsExactly(t) && t !in instanceOf ==>
        message.None? && messageTypes == old(messageTypes)
      ensures t !in old(messageTypes) && !SupportsExactly(t) ==>
        message.None? && messageTypes == old(messageTypes)[t := None]
    {
      if t in messageTypes {
        message := messageTypes[t];
        return message.Some?, message;
      }
      found, message := TryGetUncached(t);
    }

    /** The part of `TryGetMessage<T>` after a cache miss: match the URN exactly, then test the message. */
    method TryGetUncached(t: TypeInfo) returns (found: bool, message: Option<MessageConsumeContext>)
      requires Valid() && t !in messageTypes
      modifies this`messageTypes
      ensures Valid()
      ensures found <==> message.Some?
      ensures found ==> message.value.context == this && message.value.messageType == t
      ensures SupportsExactly(t) && t in instanceOf ==>
        message.Some? && fresh(message.value) && messageTypes == old(messageTypes)[t := message]
      ensures SupportsExactly(t) && t !in instanceOf ==> message.None? && messageTypes == old(messageTypes)
      ensures !SupportsExactly(t) ==> message.None? && messageTypes == old(messageTypes)[t := None]
    {
      if AnySupported(supportedTypes, MessageUrn(t), false) {
        if t in instanceOf {
          var c := new MessageConsumeContext(this, t);
          CacheFitsUpdate(messageTypes, this, supportedTypes, instanceOf, t, Some(c));
          messageTypes := messageTypes[t := Some(c)];
          found, message := true, Some(c);
        } else {
          found, message := false, None;
        }
      } else {
        CacheFitsUpdate(messageTypes, this, supportedTypes, instanceOf, t, None);
        messageTypes := messageTypes[t := None];
        found, message := false, None;
      }
    }

    /** `ExpirationTime`: read from its header on every access, never remembered. */
    function ExpirationTime(): (r: Option<DateTime>)
      ensures r == GetHeaderDateTime(headers, ExpirationTimeKey, conv)
    {
      GetHeaderDateTime(headers, ExpirationTimeKey, conv)
    }

    method MessageId() returns (r: Option<Guid>)
      requires Valid()
      modifies this`messageId
      ensures Valid() && r == GetHeaderGuid(headers, MessageIdKey, conv) && messageId == r
      ensures old(messageId).Some? ==> messageId == old(messageId)
    {
      if messageId.None? {
        messageId := GetHeaderGuid(headers, MessageIdKey, conv);
      }
      r := messageId;
    }

    method RequestId() returns (r: Option<Guid>)
      requires Valid()
      modifies this`requestId
      ensures Valid() && r == GetHeaderGuid(headers, RequestIdKey, conv) && requestId == r
      ensures old(requestId).Some? ==> requestId == old(requestId)
    {
      if requestId.None? {
        requestId := GetHeaderGuid(headers, RequestIdKey, conv);
      }
      r := requestId;
    }

    method CorrelationId() returns (r: Option<Guid>)
      requires Valid()
      modifies this`correlationId
      ensures Valid() && r == GetHeaderGuid(headers, CorrelationIdKey, conv) && correlationId == r
      ensures old(correlationId).Some? ==> correlationId == old(correlationId)
    {
      if correlationId.None? {
        correlationId := GetHeaderGuid(headers, CorrelationIdKey, conv);
      }
      r := correlationId;
    }

    method ConversationId() returns (r: Option<Guid>)
      requires Valid()
      modifies this`conversationId
      ensures Valid() && r == GetHeaderGuid(headers, ConversationIdKey, conv) && conversationId == r
      ensures old(conversationId).Some? ==> conversationId == old(conversationId)
    {
      if conversationId.None? {
        conversationId := GetHeaderGuid(headers, ConversationIdKey, conv);
      }
      r := conversationId;
    }

    method InitiatorId() returns (r: Option<Guid>)
      requires Valid()
      modifies this`initiatorId
      ensures Valid() && r == GetHeaderGuid(headers, InitiatorIdKey, conv) && initiatorId == r
      ensures old(initiatorId).Some? ==> initiatorId == old(initiatorId)
    {
      if initiatorId.None? {
        initiatorId := GetHeaderGuid(headers, InitiatorIdKey, conv);
      }
      r := initiatorId;
    }

    method SourceAddress() returns (r: Option<Uri>)
      requires Valid()
      modifies this`sourceAddress
      ensures Valid() && r == GetHeaderUri(headers, SourceAddressKey, conv) && sourceAddress == r
      ensures old(sourceAddress).Some? ==> sourceAddress == old(sourceAddress)
    {
      if sourceAddress.None? {
        sourceAddress := GetHeaderUri(headers, SourceAddressKey, conv);
      }
      r := sourceAddress;
    }

    method DestinationAddress() returns (r: Option<Uri>)
      requires Valid()
      modifies this`destinationAddress
      ensures Valid() && r == GetHeaderUri(headers, DestinationAddressKey, conv) && destinationAddress == r
      ensures old(destinationAddress).Some? ==> destinationAddress == old(destinationAddress)
    {
      if destinationAddress.None? {
        destinationAddress := GetHeaderUri(headers, DestinationAddressKey, conv);
      }
      r := destinationAddress;
    }

    method ResponseAddress() returns (r: Option<Uri>)
      requires Valid()
      modifies this`responseAddress
      ensures Valid() && r == GetHeaderUri(headers, ResponseAddressKey, conv) && responseAddress == r
      ensures old(responseAddress).Some? ==> responseAddress == old(responseAddress)
    {
      if responseAddress.None? {
        responseAddress := GetHeaderUri(headers, ResponseAddressKey, conv);
      }
      r := responseAddress;
    }

    method FaultAddress() returns (r: Option<Uri>)
      requires Valid()
      modifies this`faultAddress
      ensures Valid() && r == GetHeaderUri(headers, FaultAddressKey, conv) && faultAddress == r
      ensures old(faultAddress).Some? ==> faultAddress == old(faultAddress)
    {
      if faultAddress.None? {
        faultAddress := GetHeaderUri(headers, FaultAddressKey, conv);
      }
      r := faultAddress;
    }

    method SentTime() returns (r: Option<DateTime>)
      requires Valid()
      modifies this`sentTime
      ensures Valid() && r == GetHeaderDateTime(headers, SentTimeKey, conv) && sentTime == r
      ensures old(sentTime).Some? ==> sentTime == old(sentTime)
    {
      if sentTime.None? {
        sentTime := GetHeaderDateTime(headers, SentTimeKey, conv);
      }
      r := sentTime;
    }

    method Host() returns (r: Option<HostInfo>)
      requires Valid()
      modifies this`host
      ensures Valid() && r == GetHeaderHost(headers, HostInfoKey) && host == r
      ensures old(host).Some? ==> host == old(host)
    {
      if host.None? {
        host := GetHeaderHost(headers, HostInfoKey);
      }
      r := host;
    }
  }

  /** Asking twice for the same message type gives the same answer, and the same typed context. */
  method TryGetMessageIsStable(c: StaticConsumeContext, t: TypeInfo)
    returns (found1: bool, m1: Option<MessageConsumeContext>, found2: bool, m2: Option<MessageConsumeContext>)
    requires c.Valid()
    modifies c
    ensures found1 == found2 && m1 == m2
  {
    found1, m1 := c.TryGetMessage(t);
    found2, m2 := c.TryGetMessage(t);
  }

  /**
   * After `TryGetMessage<T>` finds no exact match, `HasMessageType(T)` answers from the
   * negative cache, even for a URN that the case-insensitive comparison would accept.
   */
  method NegativeCacheOverridesCaseInsensitiveMatch(c: StaticConsumeContext, t: TypeInfo, prefix: string)
    returns (before: bool, after: bool)
    requires c.Valid() && c.messageTypes == map[]
    requires c.supportedTypes == [Some(prefix + "b")] && MessageUrn(t) == prefix + "B"
    modifies c
    ensures before && !after
  {
    CaseOnlyDifferenceMatchesIgnoringCase(prefix);
    before := c.HasMessageType(t);
    var found, m := c.TryGetMessage(t);
    after := c.HasMessageType(t);
  }
}
