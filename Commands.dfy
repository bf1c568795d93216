/** The command layer as functions of the session state: the cache-aside fetch, the
    pagination cursors, the Pokédex, and the tokenise-and-dispatch step of the prompt
    loop. The class in Repl is proved to run exactly these functions. */
module Commands {
  import opened Text
  import opened Pokecache
  import opened Api

  datatype Option<T> = None | Some(value: T)

  /** A number drawn by rand.Intn(100). */
  type Roll = r: int | 0 <= r < 100

  /** Everything one command can read or change: the cached bodies, the two
      pagination links, and the caught Pokémon keyed by lower-cased name. */
  datatype Session = Session(
    store: map<string, Bytes>,
    next: string,
    previous: string,
    pokedex: map<string, Pokemon>)

  const Initial: Session := Session(map[], "", "", map[])

  /** What a command returns: nil or an error. */
  datatype Outcome = Done | Failed(error: Error)

  datatype Effect = Effect(after: Session, outcome: Outcome)

  /** The result of fetchData: the new cache, the decoded value or an error, and
      whether the cache answered (what "(Cache hit)" reports). */
  datatype Fetched<T> = Fetched(store: map<string, Bytes>, result: Result<T>, hit: bool)

  /** The server answers every cached URL with the very body the cache holds. */
  ghost predicate Consistent(store: map<string, Bytes>, net: string -> Response) {
    forall url :: url in store ==> net(url) == Body(store[url])
  }

  /** Every entry of a is in b, unchanged. */
  ghost predicate Extends<K, V>(a: map<K, V>, b: map<K, V>) {
    forall k :: k in a ==> k in b && b[k] == a[k]
  }

  /** A request made straight to the server, with no cache in between. */
  function Direct<T>(net: string -> Response, url: string, decode: Bytes -> Decoded<T>): Result<T> {
    match net(url)
    case RequestFailed(why) => Err(HttpError(why))
    case ReadFailed(why) => Err(BodyError(why))
    case Body(b) => Decode(decode, b)
  }

  /** fetchData: the cache is consulted under the exact URL; on a miss the server is
      asked, a body that was read is stored under that URL, and only then decoded. */
  function Fetch<T>(store: map<string, Bytes>, url: string, net: string -> Response,
                    decode: Bytes -> Decoded<T>): (f: Fetched<T>)
    ensures f.hit <==> url in store
    // on a hit the server plays no part: nothing changes and the cached bytes are decoded
    ensures f.hit ==> f.store == store && f.result == Decode(decode, store[url])
    // on a miss the result is that of asking the server directly
    ensures !f.hit ==> f.result == Direct(net, url, decode)
    // a body that was read is cached under exactly url, whether or not it decodes
    ensures !f.hit && net(url).Body? ==> f.store == store[url := net(url).bytes]
    // a failed request or read leaves the cache alone
    ensures !f.hit && !net(url).Body? ==> f.store == store && f.result.Err?
    ensures Extends(store, f.store)
    // when the cache agrees with the server, it is invisible and stays in agreement
    ensures Consistent(store, net) ==> f.result == Direct(net, url, decode) && Consistent(f.store, net)
  {
    if url in store then Fetched(store, Decode(decode, store[url]), true)
    else
      match net(url)
      case RequestFailed(why) => Fetched(store, Err(HttpError(why)), false)
      case ReadFailed(why) => Fetched(store, Err(BodyError(why)), false)
      case Body(b) => Fetched(store[url := b], Decode(decode, b), false)
  }

  /** The error a command returns for a fetch result, or nil. */
  function OutcomeOf<T>(r: Result<T>): Outcome {
    if r.Ok? then Done else Failed(r.error)
  }

  /** The tail shared by map and mapb: fetch a page of location areas and, only on
      success, take both cursors from it. */
  function TurnPage(s: Session, url: string, env: Env): (e: Effect)
    ensures var f := Fetch(s.store, url, env.net, env.pages);
      && e.after.store == f.store
      && e.after.pokedex == s.pokedex
      && e.outcome == OutcomeOf(f.result)
      && (f.result.Ok? ==> e.after.next == f.result.value.next && e.after.previous == f.result.value.previous)
      && (f.result.Err? ==> e.after.next == s.next && e.after.previous == s.previous)
  {
    var f := Fetch(s.store, url, env.net, env.pages);
    match f.result
    case Ok(page) => Effect(s.(store := f.store, next := page.next, previous := page.previous), Done)
    case Err(err) => Effect(s.(store := f.store), Failed(err))
  }

  /** commandMap: the next page, or the first one when there is no next link. */
  function MapCmd(s: Session, env: Env): (e: Effect)
    ensures s.next == "" ==> e == TurnPage(s, LocationAreaBase, env)
    ensures s.next != "" ==> e == TurnPage(s, s.next, env)
  {
    TurnPage(s, if s.next == "" then LocationAreaBase else s.next, env)
  }

  /** commandMapBack: the previous page; on the first page nothing is fetched and
      nothing changes. */
  function MapBackCmd(s: Session, env: Env): (e: Effect)
    ensures s.previous == "" ==> e == Effect(s, Done)
    ensures s.previous != "" ==> e == TurnPage(s, s.previous, env)
  {
    if s.previous == "" then Effect(s, Done) else TurnPage(s, s.previous, env)
  }

  /** commandExplore: fetches the area named by the first argument; only the cache
      can change. */
  function ExploreCmd(s: Session, args: seq<string>, env: Env): (e: Effect)
    ensures args == [] ==> e == Effect(s, Done)
    ensures args != [] ==>
      var f := Fetch(s.store, LocationAreaUrl(args[0]), env.net, env.areas);
      e.after == s.(store := f.store) && e.outcome == OutcomeOf(f.result)
  {
    if args == [] then Effect(s, Done)
    else
      var f := Fetch(s.store, LocationAreaUrl(args[0]), env.net, env.areas);
      Effect(s.(store := f.store), OutcomeOf(f.result))
  }

  /** catchChance := 100 - BaseExperience, in Go's 64-bit int. */
  function CatchChance(baseExperience: int64): int64 {
    Wrap64(100 - baseExperience as int)
  }

  /** The throw succeeds when the roll is below the catch chance. */
  function Caught(baseExperience: int64, roll: Roll): (c: bool)
    ensures baseExperience as int > MinInt64 + 100 ==> (c <==> roll < 100 - baseExperience as int)
    ensures baseExperience >= 100 ==> !c
    ensures MinInt64 + 100 < baseExperience as int <= 0 ==> c
    // 100 - BaseExperience wraps to a negative chance at the bottom of the range
    ensures baseExperience as int <= MinInt64 + 100 ==> !c
  {
    roll < CatchChance(baseExperience) as int
  }

  /** commandCatch: fetches the Pokémon named by the lower-cased first argument and,
      if the throw succeeds, files it under that name. */
  function CatchCmd(s: Session, args: seq<string>, env: Env, roll: Roll): (e: Effect)
    ensures args == [] ==> e == Effect(s, Done)
    ensures args != [] ==>
      var key := ToLower(args[0]);
      var f := Fetch(s.store, PokemonUrl(key), env.net, env.pokemon);
      && e.after.store == f.store
      && e.after.next == s.next && e.after.previous == s.previous
      && e.outcome == OutcomeOf(f.result)
      && (f.result.Err? ==> e.after.pokedex == s.pokedex)
      && (f.result.Ok? && Caught(f.result.value.baseExperience, roll) ==>
            e.after.pokedex == s.pokedex[key := f.result.value])
      && (f.result.Ok? && !Caught(f.result.value.baseExperience, roll) ==>
            e.after.pokedex == s.pokedex)
  {
    if args == [] then Effect(s, Done)
    else
      var key := ToLower(args[0]);
      var f := Fetch(s.store, PokemonUrl(key), env.net, env.pokemon);
      match f.result
      case Err(err) => Effect(s.(store := f.store), Failed(err))
      case Ok(p) =>
        var dex := if Caught(p.baseExperience, roll) then s.pokedex[key := p] else s.pokedex;
        Effect(s.(store := f.store, pokedex := dex), Done)
  }

  /** commandInspect's lookup: the entry under the lower-cased first argument. */
  function Inspected(pokedex: map<string, Pokemon>, args: seq<string>): (r: Option<Pokemon>)
    ensures args == [] ==> r == None
    ensures args != [] ==> (r.Some? <==> ToLower(args[0]) in pokedex)
    ensures r.Some? ==> r.value == pokedex[ToLower(args[0])]
  {
    if args != [] && ToLower(args[0]) in pokedex then Some(pokedex[ToLower(args[0])]) else None
  }

  /** Inspecting any spelling of a name that was just caught finds the caught record. */
  lemma CatchThenInspect(s: Session, name: string, spelling: string, env: Env, roll: Roll)
    requires ToLower(spelling) == ToLower(name)
    requires Fetch(s.store, PokemonUrl(ToLower(name)), env.net, env.pokemon).result.Ok?
    requires Caught(Fetch(s.store, PokemonUrl(ToLower(name)), env.net, env.pokemon).result.value.baseExperience, roll)
    ensures Inspected(CatchCmd(s, [name], env, roll).after.pokedex, [spelling])
         == Some(Fetch(s.store, PokemonUrl(ToLower(name)), env.net, env.pokemon).result.value)
  {
  }

  datatype Command = Exit | Help | Map | MapBack | Explore | Catch | Inspect | Pokedex

  datatype CliCommand = CliCommand(name: string, description: string, callback: Command)

  /** The commands registered at start-up, by name. */
  const Registry: map<string, CliCommand> := map[
    "exit" := CliCommand("exit", "Exit the Pokedex", Exit),
    "help" := CliCommand("help", "Displays help", Help),
    "map" := CliCommand("map", "Show locations", Map),
    "mapb" := CliCommand("mapb", "Go back", MapBack),
    "explore" := CliCommand("explore", "See Pok\U{E9}mon in an area", Explore),
    "catch" := CliCommand("catch", "Catch a Pok\U{E9}mon", Catch),
    "inspect" := CliCommand("inspect", "Inspect a caught Pok\U{E9}mon", Inspect),
    "pokedex" := CliCommand("pokedex", "View caught Pok\U{E9}mon", Pokedex)]

  /** The pokedex entries of b that are new or differ from a. */
  ghost predicate ChangedAt(a: map<string, Pokemon>, b: map<string, Pokemon>, k: string) {
    k in b && (k !in a || b[k] != a[k])
  }

  /** A command's callback. help, inspect, pokedex and exit only print (exit then
      ends the process), so they change nothing. */
  function Run(cmd: Command, s: Session, args: seq<string>, env: Env, roll: Roll): (e: Effect)
    ensures cmd in {Exit, Help, Inspect, Pokedex} ==> e == Effect(s, Done)
    // only catch touches the pokedex, only under its lower-cased argument, and never removes
    ensures s.pokedex.Keys <= e.after.pokedex.Keys
    ensures forall k :: ChangedAt(s.pokedex, e.after.pokedex, k) ==>
              cmd == Catch && args != [] && k == ToLower(args[0])
    // the cursors move only on map and mapb
    ensures cmd !in {Map, MapBack} ==> e.after.next == s.next && e.after.previous == s.previous
    // cached entries are never replaced, and agreement with the server is kept
    ensures Extends(s.store, e.after.store)
    ensures Consistent(s.store, env.net) ==> Consistent(e.after.store, env.net)
  {
    match cmd
    case Exit => Effect(s, Done)
    case Help => Effect(s, Done)
    case Map => MapCmd(s, env)
    case MapBack => MapBackCmd(s, env)
    case Explore => ExploreCmd(s, args, env)
    case Catch => CatchCmd(s, args, env, roll)
    case Inspect => Effect(s, Done)
    case Pokedex => Effect(s, Done)
  }

  /** How one input line was handled. */
  datatype Step = Skipped | Unknown(word: string) | Ran(command: Command, args: seq<string>, outcome: Outcome)

  datatype Turn = Turn(after: Session, step: Step)

  /** One pass of the prompt loop: lower-case the line, split it into words, skip a
      blank line, and run the command the first word names on the remaining words. */
  function DispatchLine(s: Session, line: string, env: Env, roll: Roll): (t: Turn)
    ensures var words := Fields(ToLower(line));
      && (t.step == Skipped <==> words == [])
      && (t.step.Unknown? <==> words != [] && words[0] !in Registry)
      && (t.step.Unknown? ==> t.step.word == words[0])
      && (!t.step.Ran? ==> t.after == s)
      && (t.step.Ran? ==>
            && words != [] && words[0] in Registry
            && t.step.command == Registry[words[0]].callback
            && t.step.args == words[1..]
            && Effect(t.after, t.step.outcome) == Run(t.step.command, s, t.step.args, env, roll))
    // only a line of nothing but white space is skipped
    ensures t.step == Skipped <==> forall i :: 0 <= i < |line| ==> IsSpace(line[i])
    // every argument handed to a command is a lower-case word
    ensures t.step.Ran? ==>
      forall k :: 0 <= k < |t.step.args| ==> IsWord(t.step.args[k]) && IsLowered(t.step.args[k])
    // the only pokedex entry a line can add or replace is the one under its catch argument
    ensures forall k :: ChangedAt(s.pokedex, t.after.pokedex, k) ==>
      t.step.Ran? && t.step.command == Catch && t.step.args != [] && k == t.step.args[0]
  {
    var words := Fields(ToLower(line));
    FieldsEmptyIffBlank(ToLower(line));
    TokensLowered(line);
    if words == [] then Turn(s, Skipped)
    else if words[0] !in Registry then Turn(s, Unknown(words[0]))
    else
      var cmd := Registry[words[0]].callback;
      var e := Run(cmd, s, words[1..], env, roll);
      Turn(e.after, Ran(cmd, words[1..], e.outcome))
  }

  /** One line typed at the prompt, with the state of the world when it was read. */
  datatype Input = Input(line: string, env: Env, roll: Roll)

  predicate Exits(step: Step) {
    step.Ran? && step.command == Exit
  }

  /** The prompt loop over a finite run of input lines; exit ends it. */
  function Replay(s: Session, inputs: seq<Input>): Session
    decreases |inputs|
  {
    if inputs == [] then s
    else
      var t := DispatchLine(s, inputs[0].line, inputs[0].env, inputs[0].roll);
      if Exits(t.step) then t.after else Replay(t.after, inputs[1..])
  }

  /** All pokedex keys are lower case. */
  ghost predicate KeysLowered(pokedex: map<string, Pokemon>) {
    forall k :: k in pokedex ==> IsLowered(k)
  }

  /** Names are stored lower case, whatever the user typed, on every session. */
  lemma {:induction false} ReplayKeepsKeysLowered(s: Session, inputs: seq<Input>)
    requires KeysLowered(s.pokedex)
    ensures KeysLowered(Replay(s, inputs).pokedex)
    decreases |inputs|
  {
    if inputs != [] {
      var t := DispatchLine(s, inputs[0].line, inputs[0].env, inputs[0].roll);
      assert KeysLowered(t.after.pokedex) by {
        forall k | k in t.after.pokedex
          ensures IsLowered(k)
        {
          if ChangedAt(s.pokedex, t.after.pokedex, k) {
            assert t.step.Ran?;
          }
        }
      }
      if !Exits(t.step) {
        ReplayKeepsKeysLowered(t.after, inputs[1..]);
      }
    }
  }

  /** Nothing is ever dropped from the pokedex or from the cache, and no cached body
      is ever replaced. */
  lemma {:induction false} ReplayOnlyGrows(s: Session, inputs: seq<Input>)
    ensures s.pokedex.Keys <= Replay(s, inputs).pokedex.Keys
    ensures Extends(s.store, Replay(s, inputs).store)
    decreases |inputs|
  {
    if inputs != [] {
      var t := DispatchLine(s, inputs[0].line, inputs[0].env, inputs[0].roll);
      if !Exits(t.step) {
        ReplayOnlyGrows(t.after, inputs[1..]);
      }
    }
  }

  /** Against a server that always answers the same, the cache never disagrees with
      it, so every fetch of the session returns what a direct request would. */
  lemma {:induction false} ReplayKeepsConsistent(s: Session, inputs: seq<Input>, net: string -> Response)
    requires Consistent(s.store, net)
    requires forall i :: 0 <= i < |inputs| ==> inputs[i].env.net == net
    ensures Consistent(Replay(s, inputs).store, net)
    decreases |inputs|
  {
    if inputs != [] {
      var t := DispatchLine(s, inputs[0].line, inputs[0].env, inputs[0].roll);
      if !Exits(t.step) {
        ReplayKeepsConsistent(t.after, inputs[1..], net);
      }
    }
  }
}
