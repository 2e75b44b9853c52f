/**
 * The bot's request path (main.go): reading the difficulty option,
 * resolving it, asking LeetCode for a question, building the reply link, and
 * the POST / handler that strings these together. Signature verification,
 * JSON decoding and Discord's respond call are outcomes supplied by a World.
 */
module Bot {
  import opened Results
  import Ascii
  import opened LeetCode
  import Http

  // ---------------------------------------------------------------------
  // Startup configuration

  /** os.Getenv: an unset variable reads as the empty string. */
  function Getenv(env: map<string, string>, key: string): (v: string)
    ensures v != "" ==> key in env && env[key] == v
    ensures key in env ==> v == env[key]
  {
    if key in env then env[key] else ""
  }

  datatype StartupError = MissingDiscordToken | MissingPublicKey | BadPublicKey

  datatype Config = Config(authorization: string, publicKeyHex: string)

  /**
   * The checks run performs before serving, in order; hex decoding of the
   * key is an outcome passed in as `keyDecodes`.
   */
  function LoadConfig(env: map<string, string>, keyDecodes: bool): (r: Result<Config, StartupError>)
    ensures r.Ok? <==> Getenv(env, "DISCORD_TOKEN") != "" && Getenv(env, "DISCORD_PUBLIC_KEY") != "" && keyDecodes
    ensures r == Err(MissingDiscordToken) <==> Getenv(env, "DISCORD_TOKEN") == ""
    ensures r == Err(MissingPublicKey) <==> Getenv(env, "DISCORD_TOKEN") != "" && Getenv(env, "DISCORD_PUBLIC_KEY") == ""
    ensures r.Ok? ==> r.value.authorization == "Bot " + Getenv(env, "DISCORD_TOKEN")
    ensures r.Ok? ==> r.value.publicKeyHex == Getenv(env, "DISCORD_PUBLIC_KEY")
  {
    var token := Getenv(env, "DISCORD_TOKEN");
    var key := Getenv(env, "DISCORD_PUBLIC_KEY");
    if token == "" then Err(MissingDiscordToken)
    else if key == "" then Err(MissingPublicKey)
    else if !keyDecodes then Err(BadPublicKey)
    else Ok(Config("Bot " + token, key))
  }

  // ---------------------------------------------------------------------
  // The difficulty option

  /** One option of an application command, with its string value. */
  datatype CommandOption = CommandOption(name: string, value: string)

  const DifficultyOptionName: string := "difficulty"

  /** The index of the first option called `name`, if there is one. */
  function FirstNamed(options: seq<CommandOption>, name: string): (r: Option<nat>)
    ensures r.Some? ==> r.value < |options| && options[r.value].name == name
    ensures r.Some? ==> forall j :: 0 <= j < r.value ==> options[j].name != name
    ensures r.None? ==> forall j :: 0 <= j < |options| ==> options[j].name != name
  {
    if options == [] then None
    else if options[0].name == name then Some(0)
    else match FirstNamed(options[1..], name)
      case None => None
      case Some(k) => Some(k + 1)
  }

  /**
   * The value the option scan leaves in difficultyOpt: the upper-cased value
   * of the first option named `difficulty`, or the empty string.
   */
  function DifficultyOption(options: seq<CommandOption>): (r: string)
    ensures (forall j :: 0 <= j < |options| ==> options[j].name != DifficultyOptionName) ==> r == ""
    ensures forall i :: (0 <= i < |options| && options[i].name == DifficultyOptionName &&
      (forall j :: 0 <= j < i ==> options[j].name != DifficultyOptionName)) ==>
      r == Ascii.Upper(options[i].value)
  {
    match FirstNamed(options, DifficultyOptionName)
    case None => ""
    case Some(i) => Ascii.Upper(options[i].value)
  }

  /** The loop over the command's options, stopping at the first `difficulty`. */
  method ScanDifficultyOption(options: seq<CommandOption>) returns (difficultyOpt: string)
    ensures difficultyOpt == DifficultyOption(options)
  {
    difficultyOpt := "";
    var i := 0;
    while i < |options|
      invariant 0 <= i <= |options|
      invariant forall j :: 0 <= j < i ==> options[j].name != DifficultyOptionName
      invariant difficultyOpt == ""
    {
      if options[i].name == DifficultyOptionName {
        difficultyOpt := Ascii.Upper(options[i].value);
        break;
      }
      i := i + 1;
    }
  }

  /** The switch on the option value against the three constants. */
  function MatchDifficulty(s: string): (r: Option<Difficulty>)
    ensures forall d :: r == Some(d) <==> s == Label(d)
  {
    if s == Label(Easy) then Some(Easy)
    else if s == Label(Medium) then Some(Medium)
    else if s == Label(Hard) then Some(Hard)
    else None
  }

  /** The difficulty the switch settles on, `roll` standing for rand.IntN(3). */
  function ResolveDifficulty(difficultyOpt: string, roll: int): (d: Difficulty)
    ensures forall e :: difficultyOpt == Label(e) ==> d == e
    ensures (forall e :: difficultyOpt != Label(e)) ==> d == RandomDifficulty(roll)
  {
    match MatchDifficulty(difficultyOpt)
    case Some(d) => d
    case None => RandomDifficulty(roll)
  }

  /** The difficulty a command with these options is fetched with. */
  function CommandDifficulty(options: seq<CommandOption>, roll: int): (d: Difficulty)
    ensures (forall j :: 0 <= j < |options| ==> options[j].name != DifficultyOptionName) ==> d == RandomDifficulty(roll)
  {
    ResolveDifficulty(DifficultyOption(options), roll)
  }

  /** A value names a difficulty exactly when it is that label in some mix of cases. */
  lemma MatchIsCaseInsensitive(value: string, d: Difficulty, roll: int)
    ensures MatchDifficulty(Ascii.Upper(value)) == Some(d) <==> Ascii.IsCaseVariant(value, Label(d))
    ensures Ascii.IsCaseVariant(value, Label(d)) ==> ResolveDifficulty(Ascii.Upper(value), roll) == d
  {
  }

  /** A value that is no case variant of a label falls back to the random draw. */
  lemma UnrecognisedIsRandom(value: string, roll: int)
    requires forall d :: !Ascii.IsCaseVariant(value, Label(d))
    ensures ResolveDifficulty(Ascii.Upper(value), roll) == RandomDifficulty(roll)
  {
  }

  /** An option with another name in front does not change the scan's result. */
  lemma DifficultyOptionSkipsHead(options: seq<CommandOption>)
    requires options != [] && options[0].name != DifficultyOptionName
    ensures DifficultyOption(options) == DifficultyOption(options[1..])
  {
  }

  /**
   * The first `difficulty` option decides, whatever follows it: later options
   * with that name and options with other names have no effect.
   */
  lemma {:induction false} FirstDifficultyOptionDecides(pre: seq<CommandOption>, value: string, post: seq<CommandOption>)
    requires forall j :: 0 <= j < |pre| ==> pre[j].name != DifficultyOptionName
    ensures DifficultyOption(pre + [CommandOption(DifficultyOptionName, value)] + post) == Ascii.Upper(value)
  {
    var s := pre + [CommandOption(DifficultyOptionName, value)] + post;
    if pre != [] {
      assert s[0] == pre[0];
      assert s[1..] == pre[1..] + [CommandOption(DifficultyOptionName, value)] + post;
      DifficultyOptionSkipsHead(s);
      FirstDifficultyOptionDecides(pre[1..], value, post);
    }
  }

  /** Removing an option with another name changes nothing. */
  lemma {:induction false} OtherOptionsIgnored(a: seq<CommandOption>, o: CommandOption, b: seq<CommandOption>)
    requires o.name != DifficultyOptionName
    ensures DifficultyOption(a + [o] + b) == DifficultyOption(a + b)
  {
    var s := a + [o] + b;
    var t := a + b;
    if a == [] {
      assert s == [o] + b && s[1..] == b && t == b;
      DifficultyOptionSkipsHead(s);
    } else {
      assert s[0] == a[0] && t[0] == a[0];
      if a[0].name != DifficultyOptionName {
        assert s[1..] == a[1..] + [o] + b;
        assert t[1..] == a[1..] + b;
        DifficultyOptionSkipsHead(s);
        DifficultyOptionSkipsHead(t);
        OtherOptionsIgnored(a[1..], o, b);
      }
    }
  }

  /**
   * The first `difficulty` option, spelled as one of the constants in any
   * mix of ASCII cases, decides the difficulty, whatever follows it.
   */
  lemma CaseVariantOptionResolves(pre: seq<CommandOption>, value: string, post: seq<CommandOption>, d: Difficulty, roll: int)
    requires forall j :: 0 <= j < |pre| ==> pre[j].name != DifficultyOptionName
    requires Ascii.IsCaseVariant(value, Label(d))
    ensures CommandDifficulty(pre + [CommandOption(DifficultyOptionName, value)] + post, roll) == d
  {
    FirstDifficultyOptionDecides(pre, value, post);
    MatchIsCaseInsensitive(value, d, roll);
  }

  /** fetchLeetCodeQuestion: scan the options, resolve the difficulty, call RandomQuestion. */
  method FetchLeetCodeQuestion(options: seq<CommandOption>, roll: int, up: Upstream) returns (x: Exchange)
    ensures x == RandomQuestion(CommandDifficulty(options, roll), up)
  {
    var difficultyOpt := ScanDifficultyOption(options);
    var difficulty := ResolveDifficulty(difficultyOpt, roll);
    x := RandomQuestion(difficulty, up);
  }

  // ---------------------------------------------------------------------
  // The reply

  const ProblemsUrlPrefix: string := "https://leetcode.com/problems/"

  /** The reply text: the problems URL with the slug appended unchecked. */
  function ReplyContent(slug: string): (c: string)
    ensures |c| == |ProblemsUrlPrefix| + |slug|
    ensures c[..|ProblemsUrlPrefix|] == ProblemsUrlPrefix
    ensures c[|ProblemsUrlPrefix|..] == slug
  {
    ProblemsUrlPrefix + slug
  }

  /** The slug can be read back from the reply, so different slugs give different replies. */
  lemma ReplyContentInjective(a: string, b: string)
    ensures ReplyContent(a) == ReplyContent(b) <==> a == b
  {
  }

  // ---------------------------------------------------------------------
  // The interaction handler

  /** Discord's interaction type numbers for a ping and an application command. */
  const InteractionPing: int := 1
  const InteractionApplicationCommand: int := 2

  /** A decoded interaction: its type, its command options, and its identity. */
  datatype Interaction = Interaction(kind: int, options: seq<CommandOption>, id: string, token: string)

  datatype InteractionResponse = Pong | ChannelMessageWithSource(content: string)

  /** The calls the handler makes to other services. */
  datatype OutboundCall =
    | SendQuestionRequest(request: HttpRequest)
    | InteractionRespond(interaction: Interaction, response: InteractionResponse)

  /**
   * Everything the handler learns from outside for one request: whether the
   * signature verifies, what the body decodes to, whether the Pong body is
   * written, the random draw, what LeetCode's side does, and whether
   * Discord's respond call succeeds.
   */
  datatype World = World(
    signatureValid: bool,
    decoded: Option<Interaction>,
    pongWritten: bool,
    roll: int,
    leetcode: Upstream,
    respondSucceeds: bool)

  predicate IsPing(world: World)
  {
    world.signatureValid && world.decoded.Some? && world.decoded.value.kind == InteractionPing
  }

  predicate IsCommand(world: World)
  {
    world.signatureValid && world.decoded.Some? && world.decoded.value.kind == InteractionApplicationCommand
  }

  predicate IsUnsupported(world: World)
  {
    world.signatureValid && world.decoded.Some? &&
    world.decoded.value.kind != InteractionPing && world.decoded.value.kind != InteractionApplicationCommand
  }

  /** The LeetCode exchange a command performs. */
  function CommandExchange(world: World): Exchange
    requires world.decoded.Some?
  {
    RandomQuestion(CommandDifficulty(world.decoded.value.options, world.roll), world.leetcode)
  }

  /** The handler for POST /; `calls` lists the outbound calls it made, in order. */
  method HandleInteraction(w: Http.ResponseWriter<InteractionResponse>, world: World) returns (calls: seq<OutboundCall>)
    requires !w.wroteHeader && w.body == [] && w.superfluous == 0
    modifies w
    ensures w.wroteHeader
    // Verification failure: 400, and the body is never looked at.
    ensures !world.signatureValid ==> w.Status() == 400 && calls == [] && w.body == []
    // Undecodable body: 400, no fetch.
    ensures world.signatureValid && world.decoded.None? ==> w.Status() == 400 && calls == [] && w.body == []
    // Ping: 200 with Pong, no fetch; a failed write's 500 is superfluous.
    ensures IsPing(world) ==> w.Status() == 200 && calls == []
    ensures IsPing(world) ==> w.body == (if world.pongWritten then [Pong] else [])
    ensures IsPing(world) ==> w.superfluous == (if world.pongWritten then 0 else 1)
    // Any other interaction type: 400, no fetch.
    ensures IsUnsupported(world) ==> w.Status() == 400 && calls == [] && w.body == []
    // Only the failed Pong write ever calls WriteHeader twice.
    ensures !IsPing(world) ==> w.superfluous == 0
    // Application command: at most one LeetCode request, with the resolved difficulty.
    ensures IsCommand(world) ==> w.body == []
    ensures IsCommand(world) && CommandExchange(world).err.Some? ==>
      w.Status() == 500 &&
      calls == (if CommandExchange(world).sent.Some? then [SendQuestionRequest(CommandExchange(world).sent.value)] else [])
    ensures IsCommand(world) && CommandExchange(world).err.None? ==>
      calls == [
        SendQuestionRequest(QuestionRequest(CommandDifficulty(world.decoded.value.options, world.roll))),
        InteractionRespond(world.decoded.value,
          ChannelMessageWithSource(ReplyContent(TitleSlug(world.leetcode.decoded.value))))] &&
      w.Status() == (if world.respondSucceeds then 200 else 500)
  {
    calls := [];
    if !world.signatureValid {
      w.WriteHeader(Http.StatusBadRequest);
      return;
    }
    if world.decoded.None? {
      w.WriteHeader(Http.StatusBadRequest);
      return;
    }
    var interaction := world.decoded.value;
    if interaction.kind == InteractionPing {
      w.WriteHeader(Http.StatusOK);
      var failed := w.Encode(Pong, world.pongWritten);
      if failed {
        w.WriteHeader(Http.StatusInternalServerError);
        return;
      }
      return;
    }
    if interaction.kind != InteractionApplicationCommand {
      w.WriteHeader(Http.StatusBadRequest);
      return;
    }
    var lcResp := FetchLeetCodeQuestion(interaction.options, world.roll, world.leetcode);
    if lcResp.sent.Some? {
      calls := calls + [SendQuestionRequest(lcResp.sent.value)];
    }
    if lcResp.err.Some? {
      w.WriteHeader(Http.StatusInternalServerError);
      return;
    }
    var interactionResp := ChannelMessageWithSource(ReplyContent(TitleSlug(lcResp.response)));
    calls := calls + [InteractionRespond(interaction, interactionResp)];
    if !world.respondSucceeds {
      w.WriteHeader(Http.StatusInternalServerError);
      return;
    }
    w.WriteHeader(Http.StatusOK);
  }
}
