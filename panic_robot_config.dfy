/**
 * Construction of a panic robot (panic_robot.go): functional options are
 * applied in order to a private option record, then the record is validated
 * and copied into a new robot.
 */
module PanicRobotConfig {
  import opened Wrappers

  /**
   * One functional option. Each constructor stands for the closure the Go
   * setter of the same name returns; its effect is given by `Applied`.
   */
  datatype PanicRobotOption =
    | PanicRobotEnable(enable: bool)
    | PanicRobotEnv(env: string)
    | PanicRobotWechatEnable(wechatEnable: bool)
    | PanicRobotWechatPushUrl(wechatPushUrl: string)
    | PanicRobotFeishuEnable(feishuEnable: bool)
    | PanicRobotFeishuPushUrl(feishuPushUrl: string)

  /** The value held by the option record `panicRobotOption`. */
  datatype Settings = Settings(
    enable: bool,
    env: string,
    wechatEnable: bool,
    wechatPushUrl: string,
    feishuEnable: bool,
    feishuPushUrl: string)

  /** A freshly allocated option record holds Go's zero values. */
  const ZeroSettings := Settings(false, "", false, "", false, "")

  /** The six fields of the option record, to talk about them uniformly. */
  datatype Field = EnableField | EnvField | WechatEnableField | WechatPushUrlField | FeishuEnableField | FeishuPushUrlField

  datatype FieldValue = Flag(flag: bool) | Text(text: string)

  function Read(s: Settings, f: Field): FieldValue
  {
    match f
    case EnableField => Flag(s.enable)
    case EnvField => Text(s.env)
    case WechatEnableField => Flag(s.wechatEnable)
    case WechatPushUrlField => Text(s.wechatPushUrl)
    case FeishuEnableField => Flag(s.feishuEnable)
    case FeishuPushUrlField => Text(s.feishuPushUrl)
  }

  /** The field an option writes. */
  function Target(o: PanicRobotOption): Field
  {
    match o
    case PanicRobotEnable(_) => EnableField
    case PanicRobotEnv(_) => EnvField
    case PanicRobotWechatEnable(_) => WechatEnableField
    case PanicRobotWechatPushUrl(_) => WechatPushUrlField
    case PanicRobotFeishuEnable(_) => FeishuEnableField
    case PanicRobotFeishuPushUrl(_) => FeishuPushUrlField
  }

  /** The value an option writes. */
  function Written(o: PanicRobotOption): FieldValue
  {
    match o
    case PanicRobotEnable(b) => Flag(b)
    case PanicRobotEnv(e) => Text(e)
    case PanicRobotWechatEnable(b) => Flag(b)
    case PanicRobotWechatPushUrl(u) => Text(u)
    case PanicRobotFeishuEnable(b) => Flag(b)
    case PanicRobotFeishuPushUrl(u) => Text(u)
  }

  /** What calling the option's closure on the record does to the record's value. */
  function Applied(s: Settings, o: PanicRobotOption): (r: Settings)
    ensures Read(r, Target(o)) == Written(o)
    ensures forall f :: f != Target(o) ==> Read(r, f) == Read(s, f)
  {
    match o
    case PanicRobotEnable(b) => s.(enable := b)
    case PanicRobotEnv(e) => s.(env := e)
    case PanicRobotWechatEnable(b) => s.(wechatEnable := b)
    case PanicRobotWechatPushUrl(u) => s.(wechatPushUrl := u)
    case PanicRobotFeishuEnable(b) => s.(feishuEnable := b)
    case PanicRobotFeishuPushUrl(u) => s.(feishuPushUrl := u)
  }

  /** The record's value after applying `opts` in order to a fresh record. */
  function Accumulate(opts: seq<PanicRobotOption>): Settings
  {
    if opts == [] then ZeroSettings else Applied(Accumulate(opts[..|opts| - 1]), opts[|opts| - 1])
  }

  /** The option record `panicRobotOption`, which the option closures update in place. */
  class OptionRecord {
    var enable: bool
    var env: string
    var wechatEnable: bool
    var wechatPushUrl: string
    var feishuEnable: bool
    var feishuPushUrl: string

    function Value(): Settings
      reads this
    {
      Settings(enable, env, wechatEnable, wechatPushUrl, feishuEnable, feishuPushUrl)
    }

    /** `&panicRobotOption{}`: every field at its zero value. */
    constructor ()
      ensures Value() == ZeroSettings
    {
      enable, env := false, "";
      wechatEnable, wechatPushUrl := false, "";
      feishuEnable, feishuPushUrl := false, "";
    }

    /** `f(opt)`: run one option's closure on this record. */
    method Apply(o: PanicRobotOption)
      modifies this
      ensures Value() == Applied(old(Value()), o)
    {
      match o
      case PanicRobotEnable(b) => enable := b;
      case PanicRobotEnv(e) => env := e;
      case PanicRobotWechatEnable(b) => wechatEnable := b;
      case PanicRobotWechatPushUrl(u) => wechatPushUrl := u;
      case PanicRobotFeishuEnable(b) => feishuEnable := b;
      case PanicRobotFeishuPushUrl(u) => feishuPushUrl := u;
    }
  }

  /** The last option written to a field decides that field. */
  lemma {:induction false} LastWriteWins(opts: seq<PanicRobotOption>, f: Field, i: nat)
    requires i < |opts| && Target(opts[i]) == f
    requires forall j :: i < j < |opts| ==> Target(opts[j]) != f
    ensures Read(Accumulate(opts), f) == Written(opts[i])
    decreases |opts|
  {
    if i < |opts| - 1 {
      LastWriteWins(opts[..|opts| - 1], f, i);
    }
  }

  /** A field no option writes keeps its zero value. */
  lemma {:induction false} UnwrittenKeepsZero(opts: seq<PanicRobotOption>, f: Field)
    requires forall j :: 0 <= j < |opts| ==> Target(opts[j]) != f
    ensures Read(Accumulate(opts), f) == Read(ZeroSettings, f)
    decreases |opts|
  {
    if opts != [] {
      UnwrittenKeepsZero(opts[..|opts| - 1], f);
    }
  }

  datatype RobotConfig = RobotConfig(enable: bool, pushUrl: string)

  /**
   * The robot `PanicRobot`, as `NewPanicRobot` returns it. The Go struct's
   * fields are exported, so a caller may change them later; `Valid()` is what
   * construction guarantees, not something the middleware relies on.
   */
  datatype PanicRobot = PanicRobot(env: string, hostName: string, wechat: RobotConfig, feishu: RobotConfig)
  {
    /** An enabled channel always has somewhere to push to. */
    predicate Valid()
    {
      (wechat.enable ==> wechat.pushUrl != "") && (feishu.enable ==> feishu.pushUrl != "")
    }
  }

  /** Why construction failed; a failed hostname lookup passes its own error through. */
  datatype ConfigError = Disabled | WechatUrlMissing | FeishuUrlMissing | HostnameFailed(cause: string)
  {
    /** The error text the caller sees. */
    function Message(): string
    {
      match this
      case Disabled => "PanicRobot Disable"
      case WechatUrlMissing => "Wechat push url Can not be Null "
      case FeishuUrlMissing => "Feishu push url Can not be Null "
      case HostnameFailed(cause) => cause
    }
  }

  /**
   * The checks after the options are applied, in their fixed order, and the
   * copy into the robot. `host` is the outcome of the hostname lookup, which
   * only matters once the three checks have passed.
   */
  function Validate(s: Settings, host: Result<string, string>): (r: Result<PanicRobot, ConfigError>)
    ensures r.Success? <==>
      s.enable && (s.wechatEnable ==> s.wechatPushUrl != "") && (s.feishuEnable ==> s.feishuPushUrl != "") && host.Success?
    ensures r.Success? ==>
      r.value.Valid() && r.value.env == s.env && r.value.hostName == host.value &&
      r.value.wechat == RobotConfig(s.wechatEnable, s.wechatPushUrl) &&
      r.value.feishu == RobotConfig(s.feishuEnable, s.feishuPushUrl)
    ensures !s.enable ==> r == Failure(Disabled)
    ensures s.enable && s.wechatEnable && s.wechatPushUrl == "" ==> r == Failure(WechatUrlMissing)
    ensures s.enable && !(s.wechatEnable && s.wechatPushUrl == "") && s.feishuEnable && s.feishuPushUrl == "" ==>
      r == Failure(FeishuUrlMissing)
    ensures (s.enable && !(s.wechatEnable && s.wechatPushUrl == "") && !(s.feishuEnable && s.feishuPushUrl == "") &&
      host.Failure?) ==> r == Failure(HostnameFailed(host.error))
  {
    if !s.enable then Failure(Disabled)
    else if s.wechatEnable && s.wechatPushUrl == "" then Failure(WechatUrlMissing)
    else if s.feishuEnable && s.feishuPushUrl == "" then Failure(FeishuUrlMissing)
    else if host.Failure? then Failure(HostnameFailed(host.error))
    else Success(PanicRobot(
      s.env, host.value,
      RobotConfig(s.wechatEnable, s.wechatPushUrl),
      RobotConfig(s.feishuEnable, s.feishuPushUrl)))
  }

  /** NewPanicRobot: apply the options to a fresh record in order, then validate. */
  method NewPanicRobot(opts: seq<PanicRobotOption>, host: Result<string, string>)
    returns (r: Result<PanicRobot, ConfigError>)
    ensures r == Validate(Accumulate(opts), host)
  {
    var opt := new OptionRecord();
    for i := 0 to |opts|
      invariant opt.Value() == Accumulate(opts[..i])
    {
      assert opts[..i + 1][..i] == opts[..i];
      opt.Apply(opts[i]);
    }
    assert opts[..|opts|] == opts;

    if !opt.enable {
      return Failure(Disabled);
    }
    if opt.wechatEnable && opt.wechatPushUrl == "" {
      return Failure(WechatUrlMissing);
    }
    if opt.feishuEnable && opt.feishuPushUrl == "" {
      return Failure(FeishuUrlMissing);
    }
    if host.Failure? {
      return Failure(HostnameFailed(host.error));
    }
    return Success(PanicRobot(
      opt.env, host.value,
      RobotConfig(opt.wechatEnable, opt.wechatPushUrl),
      RobotConfig(opt.feishuEnable, opt.feishuPushUrl)));
  }

  /**
   * When the last enable option says false, construction fails as disabled,
   * whatever the other options and the hostname lookup are.
   */
  lemma {:induction false} DisabledWhateverElse(opts: seq<PanicRobotOption>, i: nat, host: Result<string, string>)
    requires i < |opts| && opts[i] == PanicRobotEnable(false)
    requires forall j :: i < j < |opts| ==> !opts[j].PanicRobotEnable?
    ensures Validate(Accumulate(opts), host) == Failure(Disabled)
  {
    LastWriteWins(opts, EnableField, i);
  }

  /** The robot is opt-in: without any enable option construction fails as disabled. */
  lemma {:induction false} EnableIsOptIn(opts: seq<PanicRobotOption>, host: Result<string, string>)
    requires forall j :: 0 <= j < |opts| ==> !opts[j].PanicRobotEnable?
    ensures Validate(Accumulate(opts), host) == Failure(Disabled)
  {
    UnwrittenKeepsZero(opts, EnableField);
  }

  /**
   * With the robot enabled and both channels' last URL options non-empty,
   * construction succeeds exactly when the hostname lookup does, and the
   * robot carries those URLs.
   */
  lemma UrlsGivenSucceeds(opts: seq<PanicRobotOption>, e: nat, w: nat, f: nat, host: Result<string, string>)
    requires e < |opts| && opts[e] == PanicRobotEnable(true)
    requires forall j :: e < j < |opts| ==> !opts[j].PanicRobotEnable?
    requires w < |opts| && opts[w].PanicRobotWechatPushUrl? && opts[w].wechatPushUrl != ""
    requires forall j :: w < j < |opts| ==> !opts[j].PanicRobotWechatPushUrl?
    requires f < |opts| && opts[f].PanicRobotFeishuPushUrl? && opts[f].feishuPushUrl != ""
    requires forall j :: f < j < |opts| ==> !opts[j].PanicRobotFeishuPushUrl?
    ensures Validate(Accumulate(opts), host).Success? <==> host.Success?
    ensures host.Success? ==>
      Validate(Accumulate(opts), host).value.wechat.pushUrl == opts[w].wechatPushUrl &&
      Validate(Accumulate(opts), host).value.feishu.pushUrl == opts[f].feishuPushUrl
  {
    LastWriteWins(opts, EnableField, e);
    LastWriteWins(opts, WechatPushUrlField, w);
    LastWriteWins(opts, FeishuPushUrlField, f);
  }
}
