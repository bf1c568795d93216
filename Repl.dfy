/** The program's config record as an object: a handle on the response cache, the
    two pagination links, and the Pokédex, with the fetch and the command callbacks
    as methods that update its fields. Each method is proved to have exactly the
    effect the matching function of Commands gives on the session it sees. */
module Repl {
  import opened Text
  import opened Pokecache
  import opened Api
  import opened Commands

  class Config {
    const cache: Cache
    var next: string
    var previous: string
    var pokedex: map<string, Pokemon>

    /** The session state this object holds. */
    ghost function Snapshot(): Session
      reads this, cache
    {
      Session(cache.store, next, previous, pokedex)
    }

    /** The state main builds before the prompt loop: an empty cache, no links, an
        empty Pokédex. */
    constructor ()
      ensures fresh(cache)
      ensures Snapshot() == Initial
    {
      cache := new Cache();
      next := "";
      previous := "";
      pokedex := map[];
    }

    /** fetchData: cache first, then the server; a read body is cached before it is
        decoded. */
    method FetchData<T>(url: string, net: string -> Response, decode: Bytes -> Decoded<T>)
      returns (r: Result<T>, hit: bool)
      modifies cache
      ensures Fetched(cache.store, r, hit) == Fetch(old(cache.store), url, net, decode)
    {
      var cached, found := cache.Get(url);
      if found {
        return Decode(decode, cached), true;
      }
      hit := false;
      match net(url) {
        case RequestFailed(why) =>
          r := Err(HttpError(why));
        case ReadFailed(why) =>
          r := Err(BodyError(why));
        case Body(body) =>
          cache.Add(url, body);
          r := Decode(decode, body);
      }
    }

    /** Fetches a page of location areas and, on success, moves both links. */
    method FetchPage(url: string, env: Env) returns (outcome: Outcome)
      modifies this, cache
      ensures Effect(Snapshot(), outcome) == TurnPage(old(Snapshot()), url, env)
    {
      var r, hit := FetchData(url, env.net, env.pages);
      match r {
        case Err(err) =>
          outcome := Failed(err);
        case Ok(page) =>
          next := page.next;
          previous := page.previous;
          outcome := Done;
      }
    }

    method CommandMap(env: Env) returns (outcome: Outcome)
      modifies this, cache
      ensures Effect(Snapshot(), outcome) == MapCmd(old(Snapshot()), env)
    {
      var url := LocationAreaBase;
      if next != "" {
        url := next;
      }
      outcome := FetchPage(url, env);
    }

    method CommandMapBack(env: Env) returns (outcome: Outcome)
      modifies this, cache
      ensures Effect(Snapshot(), outcome) == MapBackCmd(old(Snapshot()), env)
    {
      if previous == "" {
        return Done;
      }
      outcome := FetchPage(previous, env);
    }

    method CommandExplore(args: seq<string>, env: Env) returns (outcome: Outcome)
      modifies cache
      ensures Effect(Snapshot(), outcome) == ExploreCmd(old(Snapshot()), args, env)
    {
      if |args| < 1 {
        return Done;
      }
      var r, hit := FetchData(LocationAreaUrl(args[0]), env.net, env.areas);
      outcome := OutcomeOf(r);
    }

    method CommandCatch(args: seq<string>, env: Env, roll: Roll) returns (outcome: Outcome)
      modifies this, cache
      ensures Effect(Snapshot(), outcome) == CatchCmd(old(Snapshot()), args, env, roll)
    {
      if |args| < 1 {
        return Done;
      }
      var name := ToLower(args[0]);
      var r, hit := FetchData(PokemonUrl(name), env.net, env.pokemon);
      match r {
        case Err(err) =>
          outcome := Failed(err);
        case Ok(p) =>
          var chance := CatchChance(p.baseExperience);
          if roll < chance as int {
            pokedex := pokedex[name := p];
          }
          outcome := Done;
      }
    }

    /** commandInspect: shows the entry under the lower-cased first argument, if any. */
    method CommandInspect(args: seq<string>) returns (outcome: Outcome, shown: Option<Pokemon>)
      ensures outcome == Done
      ensures shown == Inspected(pokedex, args)
    {
      outcome := Done;
      if |args| < 1 {
        return outcome, None;
      }
      var name := ToLower(args[0]);
      if name !in pokedex {
        return outcome, None;
      }
      shown := Some(pokedex[name]);
    }

    /** commandPokedex: lists the names caught so far, in no particular order. */
    method CommandPokedex() returns (outcome: Outcome, names: set<string>)
      ensures outcome == Done
      ensures names == pokedex.Keys
    {
      outcome := Done;
      if |pokedex| == 0 {
        return outcome, {};
      }
      names := pokedex.Keys;
    }

    /** One pass of the prompt loop's body on the line just read. */
    method Dispatch(line: string, env: Env, roll: Roll) returns (step: Step)
      modifies this, cache
      ensures Turn(Snapshot(), step) == DispatchLine(old(Snapshot()), line, env, roll)
    {
      var words := Fields(ToLower(line));
      if |words| == 0 {
        return Skipped;
      }
      if words[0] !in Registry {
        return Unknown(words[0]);
      }
      var cmd := Registry[words[0]].callback;
      var args := words[1..];
      var outcome: Outcome;
      match cmd {
        case Exit =>
          outcome := Done;
        case Help =>
          outcome := Done;
        case Map =>
          outcome := CommandMap(env);
        case MapBack =>
          outcome := CommandMapBack(env);
        case Explore =>
          outcome := CommandExplore(args, env);
        case Catch =>
          outcome := CommandCatch(args, env, roll);
        case Inspect =>
          var shown;
          outcome, shown := CommandInspect(args);
        case Pokedex =>
          var names;
          outcome, names := CommandPokedex();
      }
      step := Ran(cmd, args, outcome);
    }

    /** The prompt loop over the lines read, until exit. */
    method Prompt(inputs: seq<Input>)
      modifies this, cache
      ensures Snapshot() == Replay(old(Snapshot()), inputs)
    {
      var read := 0;
      while read < |inputs|
        invariant 0 <= read <= |inputs|
        invariant Replay(old(Snapshot()), inputs) == Replay(Snapshot(), inputs[read..])
      {
        var input := inputs[read];
        var step := Dispatch(input.line, input.env, input.roll);
        assert inputs[read..][1..] == inputs[read + 1..];
        read := read + 1;
        if Exits(step) {
          return;
        }
      }
    }
  }
}
