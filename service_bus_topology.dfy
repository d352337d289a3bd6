/**
 * `ServiceBusSendTopology`: where the Azure Service Bus transport sends messages, and where
 * it moves the ones that fail (`_error`) or that nobody consumes (`_skipped`). The queue
 * paths are built from `Trim('/')`, concatenation and one conditional.
 */
module ServiceBusTopology {
  import opened Common

  const ErrorQueueSuffix: string := "_error"
  const DeadLetterQueueSuffix: string := "_skipped"

  // ---------------------------------------------------------------------------------------
  // `String.Trim('/')`
  // ---------------------------------------------------------------------------------------

  /** `TrimStart('/')`: drop the leading slashes. */
  function TrimStart(s: string): (r: string)
    ensures |r| <= |s| && r == s[|s| - |r|..]
    ensures forall i :: 0 <= i < |s| - |r| ==> s[i] == '/'
    ensures r == [] || r[0] != '/'
  {
    if s == [] then []
    else if s[0] == '/' then TrimStart(s[1..])
    else s
  }

  /** `TrimEnd('/')`: drop the trailing slashes. */
  function TrimEnd(s: string): (r: string)
    ensures |r| <= |s| && r == s[..|r|]
    ensures forall i :: |r| <= i < |s| ==> s[i] == '/'
    ensures r == [] || r[|r| - 1] != '/'
  {
    if s == [] then []
    else if s[|s| - 1] == '/' then TrimEnd(s[..|s| - 1])
    else s
  }

  /** `Trim('/')`: drop the slashes at both ends. */
  function Trim(s: string): string {
    TrimEnd(TrimStart(s))
  }

  /**
   * The trimmed string neither starts nor ends with a slash, and it is what is left of `s`
   * after removing a run of slashes at each end.
   */
  lemma TrimShape(s: string)
    ensures var r, k := Trim(s), |s| - |TrimStart(s)|;
      (r == [] || (r[0] != '/' && r[|r| - 1] != '/'))
      && k + |r| <= |s| && r == s[k..k + |r|]
      && (forall i :: 0 <= i < k ==> s[i] == '/')
      && (forall i :: k + |r| <= i < |s| ==> s[i] == '/')
  {
    TrimEnds(s);
    TrimIsSlice(s);
    TrimDropsOnlySlashes(s);
  }

  /** The trimmed string is empty or has a non-slash character at each end. */
  lemma TrimEnds(s: string)
    ensures var r := Trim(s); r == [] || (r[0] != '/' && r[|r| - 1] != '/')
  {
    var t := TrimStart(s);
    var r := TrimEnd(t);
    if r != [] {
      assert r == t[..|r|];
      assert r[0] == t[0];
    }
  }

  /** The trimmed string is the slice of `s` that starts after its leading slashes. */
  lemma TrimIsSlice(s: string)
    ensures var r, k := Trim(s), |s| - |TrimStart(s)|; k + |r| <= |s| && r == s[k..k + |r|]
  {
    var t := TrimStart(s);
    var r := TrimEnd(t);
    var k := |s| - |t|;
    assert t == s[k..];
    assert r == t[..|r|];
  }

  /** Everything `Trim` removes, before and after that slice, is a slash. */
  lemma TrimDropsOnlySlashes(s: string)
    ensures var r, k := Trim(s), |s| - |TrimStart(s)|;
      (forall i :: 0 <= i < k ==> s[i] == '/') && (forall i :: k + |r| <= i < |s| ==> s[i] == '/')
  {
    var t := TrimStart(s);
    var r := TrimEnd(t);
    var k := |s| - |t|;
    assert t == s[k..];
    forall i | k + |r| <= i < |s|
      ensures s[i] == '/'
    {
      assert s[i] == t[i - k];
    }
  }

  /** A string without slashes at its ends is its own trim. */
  lemma TrimLeavesInnerString(s: string)
    requires s == [] || (s[0] != '/' && s[|s| - 1] != '/')
    ensures Trim(s) == s
  {
  }

  /** Trimming twice is trimming once. */
  lemma TrimIdempotent(s: string)
    ensures Trim(Trim(s)) == Trim(s)
  {
    TrimShape(s);
    TrimLeavesInnerString(Trim(s));
  }

  // ---------------------------------------------------------------------------------------
  // Queue paths
  // ---------------------------------------------------------------------------------------

  /**
   * The queue path derived from a subscription: the trimmed base path, then `/`, then the
   * trimmed `name + suffix`; just `name + suffix`, untrimmed, when the trimmed base is empty.
   */
  function SubscriptionQueuePath(basePath: string, path: string): string {
    var b := Trim(basePath);
    if b == [] then path else b + "/" + Trim(path)
  }

  /** With a non-empty trimmed base the path starts with it and a `/`, and never begins or ends with a slash. */
  lemma SubscriptionQueuePathUnderBase(basePath: string, path: string)
    requires Trim(basePath) != []
    ensures var q, b := SubscriptionQueuePath(basePath, path), Trim(basePath);
      StartsWith(q, b + "/") && q[0] != '/'
      && q[|b| + 1..] == Trim(path)
      && (Trim(path) != [] ==> q[|q| - 1] != '/')
  {
    TrimShape(basePath);
    TrimShape(path);
    var b := Trim(basePath);
    var q := SubscriptionQueuePath(basePath, path);
    assert q == (b + "/") + Trim(path);
    assert q[0] == b[0];
  }

  /** A slash in the path comes from the base separator, or from the subscription name itself. */
  lemma SlashOnlyFromBaseOrName(basePath: string, name: string, suffix: string)
    requires '/' !in suffix
    ensures '/' in SubscriptionQueuePath(basePath, name + suffix) ==> Trim(basePath) != [] || '/' in name
  {
    if Trim(basePath) == [] && '/' in name + suffix {
      var i :| 0 <= i < |name + suffix| && (name + suffix)[i] == '/';
      if i >= |name| {
        assert suffix[i - |name|] == '/';
      }
    }
  }

  /** The untrimmed branch: a subscription name that begins with `/` gives a path that begins with `/` when the base is only slashes. */
  lemma LeadingSlashSurvivesWithoutBase()
    ensures SubscriptionQueuePath("/", "/orders" + ErrorQueueSuffix) == "/orders_error"
  {
    assert Trim("/") == [] by {
      assert TrimStart("/") == TrimStart("/"[1..]);
      assert "/"[1..] == [];
    }
  }

  // ---------------------------------------------------------------------------------------
  // Descriptions and settings
  // ---------------------------------------------------------------------------------------

  /** The values `Defaults.CreateQueueDescription` starts a queue description from. */
  datatype QueueDefaults = QueueDefaults(defaultMessageTimeToLive: int, autoDeleteOnIdle: int, enableExpress: bool)

  /** A `QueueDescription`, which the topology changes in place; durations are in seconds. */
  class QueueDescription {
    var path: string
    var defaultMessageTimeToLive: int
    var autoDeleteOnIdle: int
    var enableExpress: bool

    /** `Defaults.CreateQueueDescription(path)`. */
    constructor (path: string, defaults: QueueDefaults)
      ensures this.path == path
      ensures defaultMessageTimeToLive == defaults.defaultMessageTimeToLive
      ensures autoDeleteOnIdle == defaults.autoDeleteOnIdle && enableExpress == defaults.enableExpress
    {
      this.path := path;
      defaultMessageTimeToLive := defaults.defaultMessageTimeToLive;
      autoDeleteOnIdle := defaults.autoDeleteOnIdle;
      enableExpress := defaults.enableExpress;
    }
  }

  /** The subscription description an `ISubscriptionConfigurator` reports: only what the topology reads. */
  datatype SubscriptionDescription = SubscriptionDescription(name: string, defaultMessageTimeToLive: int, autoDeleteOnIdle: int)

  /** `QueueSendSettings`: the settings wrap the description object they were built from. */
  datatype SendSettings = QueueSendSettings(description: QueueDescription)

  /** A send address: its absolute path and the parsed `autodelete` and `express` query values (None when absent or unparseable). */
  datatype Address = Address(absolutePath: string, autodelete: Option<int>, express: Option<bool>)

  /** `GetErrorSettings(IQueueConfigurator)`: the configurator's queue description, its path given the `_error` suffix. */
  method GetQueueErrorSettings(description: QueueDescription) returns (settings: SendSettings)
    modifies description
    ensures description.path == old(description.path) + ErrorQueueSuffix
    ensures settings.description == description
    ensures unchanged(description`defaultMessageTimeToLive, description`autoDeleteOnIdle, description`enableExpress)
  {
    description.path := description.path + ErrorQueueSuffix;
    return QueueSendSettings(description);
  }

  /** `GetDeadLetterSettings(IQueueConfigurator)`: likewise with the `_skipped` suffix. */
  method GetQueueDeadLetterSettings(description: QueueDescription) returns (settings: SendSettings)
    modifies description
    ensures description.path == old(description.path) + DeadLetterQueueSuffix
    ensures settings.description == description
    ensures unchanged(description`defaultMessageTimeToLive, description`autoDeleteOnIdle, description`enableExpress)
  {
    description.path := description.path + DeadLetterQueueSuffix;
    return QueueSendSettings(description);
  }

  /**
   * A queue for a subscription: a new description at the subscription queue path, which
   * copies the subscription's message time-to-live and auto-delete-on-idle.
   */
  method SubscriptionQueueSettings(subscription: SubscriptionDescription, basePath: string, suffix: string, defaults: QueueDefaults)
    returns (settings: SendSettings)
    ensures fresh(settings.description)
    ensures settings.description.path == SubscriptionQueuePath(basePath, subscription.name + suffix)
    ensures settings.description.defaultMessageTimeToLive == subscription.defaultMessageTimeToLive
    ensures settings.description.autoDeleteOnIdle == subscription.autoDeleteOnIdle
    ensures settings.description.enableExpress == defaults.enableExpress
  {
    var queuePath := SubscriptionQueuePath(basePath, subscription.name + suffix);
    var queueDescription := new QueueDescription(queuePath, defaults);
    queueDescription.defaultMessageTimeToLive := subscription.defaultMessageTimeToLive;
    queueDescription.autoDeleteOnIdle := subscription.autoDeleteOnIdle;
    return QueueSendSettings(queueDescription);
  }

  /** `GetErrorSettings(ISubscriptionConfigurator, basePath)`. */
  method GetSubscriptionErrorSettings(subscription: SubscriptionDescription, basePath: string, defaults: QueueDefaults)
    returns (settings: SendSettings)
    ensures fresh(settings.description)
    ensures settings.description.path == SubscriptionQueuePath(basePath, subscription.name + ErrorQueueSuffix)
    ensures settings.description.defaultMessageTimeToLive == subscription.defaultMessageTimeToLive
    ensures settings.description.autoDeleteOnIdle == subscription.autoDeleteOnIdle
  {
    settings := SubscriptionQueueSettings(subscription, basePath, ErrorQueueSuffix, defaults);
  }

  /** `GetDeadLetterSettings(ISubscriptionConfigurator, basePath)`. */
  method GetSubscriptionDeadLetterSettings(subscription: SubscriptionDescription, basePath: string, defaults: QueueDefaults)
    returns (settings: SendSettings)
    ensures fresh(settings.description)
    ensures settings.description.path == SubscriptionQueuePath(basePath, subscription.name + DeadLetterQueueSuffix)
    ensures settings.description.defaultMessageTimeToLive == subscription.defaultMessageTimeToLive
    ensures settings.description.autoDeleteOnIdle == subscription.autoDeleteOnIdle
  {
    settings := SubscriptionQueueSettings(subscription, basePath, DeadLetterQueueSuffix, defaults);
  }

  /** How long an idle queue lives: the `autodelete` seconds when that is positive, the default otherwise. */
  function AutoDeleteOnIdle(address: Address, defaults: QueueDefaults): (seconds: int)
    ensures address.autodelete.GetOr(0) > 0 ==> seconds == address.autodelete.value
    ensures address.autodelete.GetOr(0) <= 0 ==> seconds == defaults.autoDeleteOnIdle
  {
    var requested := address.autodelete.GetOr(0);
    if requested > 0 then requested else defaults.autoDeleteOnIdle
  }

  /**
   * `GetQueueDescription(address)`: a new description named by the address path trimmed of
   * slashes; `autodelete` overrides the idle time only when positive, `express` overrides the
   * default when given.
   */
  method GetQueueDescription(address: Address, defaults: QueueDefaults) returns (description: QueueDescription)
    ensures fresh(description)
    ensures description.path == Trim(address.absolutePath)
    ensures description.autoDeleteOnIdle == AutoDeleteOnIdle(address, defaults)
    ensures description.defaultMessageTimeToLive == defaults.defaultMessageTimeToLive
    ensures description.enableExpress == address.express.GetOr(defaults.enableExpress)
  {
    var queueName := Trim(address.absolutePath);
    description := new QueueDescription(queueName, defaults);
    var autoDeleteOnIdleSeconds := address.autodelete.GetOr(0);
    if autoDeleteOnIdleSeconds > 0 {
      description.autoDeleteOnIdle := autoDeleteOnIdleSeconds;
    }
    description.enableExpress := address.express.GetOr(description.enableExpress);
  }

  /** `GetSendSettings(address)`: the settings of the queue the address names. */
  method GetSendSettings(address: Address, defaults: QueueDefaults) returns (settings: SendSettings)
    ensures fresh(settings.description)
    ensures settings.description.path == Trim(address.absolutePath)
    ensures settings.description.autoDeleteOnIdle == AutoDeleteOnIdle(address, defaults)
    ensures settings.description.enableExpress == address.express.GetOr(defaults.enableExpress)
  {
    var queueDescription := GetQueueDescription(address, defaults);
    return QueueSendSettings(queueDescription);
  }

  /** The queue name never begins or ends with a slash, whatever the address path. */
  lemma QueueNameHasNoOuterSlash(address: Address)
    ensures var name := Trim(address.absolutePath);
      name == [] || (name[0] != '/' && name[|name| - 1] != '/')
  {
    TrimShape(address.absolutePath);
  }
}
