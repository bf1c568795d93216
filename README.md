# PokeDexCLI command layer, modelled in Dafny

PokeDexCLI is an interactive prompt for looking up Pokémon data. Under its terminal
I/O sits a small stateful controller. This project models that controller and proves
what it does:

- a `config` record holding a response cache, two pagination links (`next`,
  `previous`) and a Pokédex of caught Pokémon;
- the cache-aside fetch `fetchData`: look in the cache under the exact URL; on a miss,
  ask the server, store the body under that URL, then decode it;
- the commands `map`, `mapb`, `explore`, `catch`, `inspect`, `pokedex`, `help` and
  `exit`;
- the prompt loop's body: lower-case the line, split it on white space, skip a blank
  line, and let the first word pick the command that receives the rest as arguments.

Files, one module each:

- `Text.dfy`: `strings.ToLower` (ASCII letters) and `strings.Fields` (Go's white-space
  set), with the facts the dispatcher relies on.
- `Pokecache.dfy`: the cache as a class over a `map` from URL to body, with `Add` and
  `Get`.
- `Api.dfy`: the decoded records, the request outcomes and errors, the request URLs,
  and Go's 64-bit `int`.
- `Commands.dfy`: a pure model of each operation as a function of a `Session` value
  (cache, links, Pokédex), stating what the source promises, plus session-level
  lemmas.
- `Repl.dfy`: class `Config`, whose methods update its fields step by step, as the
  Go code does. Each method is proved to have exactly the effect of the matching
  function in `Commands`.

The outside world is represented by parameters:

- The network is a function `net` from URL to outcome: a failed request, a failed
  body read, or a body.
- JSON decoding is one function per response layout. A decoder gives a value or a
  "malformed" reason.
- Each is carried in an `Env` value given to each command.
- The random roll is a `Roll`, an integer in `[0, 100)`.

Two behaviours of the code are worth knowing:

- A body that was read but fails to decode is still cached. Later requests for that
  URL get the same cached bytes back, so the same decoder fails on them again, until
  the entry expires (`Commands.Fetch`).
- `100 - BaseExperience` is computed in Go's 64-bit `int`. For the 101 smallest
  values of `BaseExperience` it wraps to a negative chance, so those records can
  never be caught (`Commands.Caught`).

The cache is created at main.go:250 as `NewCache(10 * time.Second)`, a time-based
cache. The cache package's code is not part of this model, so the model keeps an
entry until it is overwritten or the session ends. Where a proved property relies
on that, the property is listed below.

## Model

| member | source | states |
|---|---|---|
| `Text.ToLower` | main.go:269 | same length; no upper-case ASCII letter left; letters shifted down by 32, other characters kept; white space preserved position by position; lower-case input unchanged |
| `Text.Fields` | main.go:269 | every token is non-empty and has no white space in it |
| `Text.FieldsSplit` | main.go:269 | a white-space character splits the line: the tokens of `a + [c] + b` are the tokens of `a` followed by those of `b` |
| `Text.FieldsEmptyIffBlank` | main.go:269-272 | a line gives no token exactly when it is all white space (both directions) |
| `Text.FieldsOfJoin` | main.go:269 | splitting words joined by one blank gives the same words back (round trip) |
| `Text.ConcatFields` | main.go:269 | the tokens laid end to end are exactly the line's non-space characters, in order |
| `Text.FieldsOfLower` | main.go:269 | lower-casing then splitting gives the same tokens as splitting then lower-casing each token |
| `Text.TokensLowered` | main.go:269 | every token of a lower-cased line is lower case |
| `Pokecache.Cache.constructor` | main.go:250 | a new cache holds nothing |
| `Pokecache.Cache.Add` | main.go:87 | upsert: the store is the old store with exactly that key set to the body |
| `Pokecache.Cache.Get` | main.go:70 | found exactly when the key is stored, and then the stored body is returned; an empty body still counts as found |
| `Api.Wrap64` | main.go:192 | the result is congruent to the input modulo 2^64; it is the input when that fits in 64 bits, and the input minus 2^64 just above the range |
| `Api.LocationAreaUrl` | main.go:157 | the location-area prefix, then the area name, then '/'; the name can be read back from the URL |
| `Api.PokemonUrl` | main.go:181 | the Pokémon prefix, then the name, then '/'; the name can be read back from the URL |
| `Api.UrlsDistinct` | main.go:181 | different names give different cache keys, and a Pokémon URL never equals a location-area URL or the base list URL |
| `Commands.Fetch` | main.go:69-89 | hit exactly when the URL is cached. On a hit the cache is unchanged and the cached bytes are passed to the decoder (`Api.Decode` turns a malformed body into a JSON error), whatever the server would say. On a miss the result is a direct request's. A read body is stored under exactly that URL, even when it fails to decode. A failed request or read leaves the cache alone and returns an error. No cached entry is replaced. If the cache agrees with the server, the fetch returns what a direct request would and the agreement is kept |
| `Commands.TurnPage` | main.go:113-126 | the cache changes as the fetch says and the Pokédex not at all. On success both links come from the page and the outcome is nil. On error both links are kept and the error is returned |
| `Commands.MapCmd` | main.go:107-127 | requests the base location-area URL when `next` is empty and `next` otherwise, then turns the page |
| `Commands.MapBackCmd` | main.go:129-149 | when `previous` is empty: no fetch, no change, nil. Otherwise it requests `previous` and turns the page |
| `Commands.ExploreCmd` | main.go:151-171 | a missing argument is a no-op returning nil. Otherwise it fetches the area URL built from the first argument, only the cache changes, and an error is returned as is |
| `Commands.Caught` | main.go:191-194 | without overflow, caught exactly when the roll is below `100 - BaseExperience`. `BaseExperience >= 100` never catches. `BaseExperience` from MinInt64+101 to 0 always catches. At MinInt64+100 and below the chance wraps negative and nothing is caught |
| `Commands.CatchCmd` | main.go:174-203 | a missing argument is a no-op returning nil. Otherwise it fetches the URL of the lower-cased name and keeps both links. A fetch error leaves the Pokédex unchanged and is returned. On success the Pokédex gains the record under the lower-cased name exactly when the throw succeeds, and is otherwise unchanged |
| `Commands.Inspected` | main.go:206-218 | no argument gives nothing. Otherwise it finds a record exactly when the lower-cased first argument is a key, and returns the record stored there |
| `Commands.CatchThenInspect` | main.go:180-214 | after a successful catch, inspecting any spelling that lower-cases to the same name finds the caught record |
| `Commands.Run` | main.go:256-263 | exit, help, inspect and pokedex change nothing. No command removes a Pokédex entry. Only catch adds or replaces one, and only under its lower-cased argument. Only map and mapb move the links. No cached entry is replaced, and agreement with the server is kept |
| `Commands.DispatchLine` | main.go:269-277 | the tokens are those of the lower-cased line. The line is skipped exactly when it has no token, which is exactly when it is all white space. An unknown first word runs nothing and changes nothing. Otherwise the registered callback runs on the remaining tokens, each a non-empty lower-case word. The only Pokédex entry a line can change is the one under its catch argument |
| `Commands.ReplayKeepsKeysLowered` | main.go:196 | over any session of lines, every Pokédex key stays lower case |
| `Commands.ReplayOnlyGrows` | main.go:196 | over any session, no Pokédex key and no cache entry disappears, and no cached body is replaced |
| `Commands.ReplayKeepsConsistent` | main.go:87 | against a server that always answers the same, the cache never disagrees with it over a whole session, so every fetch returns what a direct request would |
| `Repl.Config.constructor` | main.go:249-253 | the initial state: empty cache, empty links, empty Pokédex |
| `Repl.Config.FetchData` | main.go:69-89 | new cache, result and hit flag are exactly those of `Commands.Fetch` on the old cache; the other fields are untouched |
| `Repl.Config.FetchPage` | main.go:135-148 | the new state and outcome are exactly those of `Commands.TurnPage` on the old state |
| `Repl.Config.CommandMap` | main.go:107-127 | the new state and outcome are exactly those of `Commands.MapCmd` on the old state |
| `Repl.Config.CommandMapBack` | main.go:129-149 | the new state and outcome are exactly those of `Commands.MapBackCmd` on the old state |
| `Repl.Config.CommandExplore` | main.go:151-171 | only the cache changes, exactly as `Commands.ExploreCmd` says |
| `Repl.Config.CommandCatch` | main.go:174-203 | the new state and outcome are exactly those of `Commands.CatchCmd` on the old state |
| `Repl.Config.CommandInspect` | main.go:206-231 | changes nothing, returns nil, and shows the record `Commands.Inspected` finds |
| `Repl.Config.CommandPokedex` | main.go:234-246 | changes nothing, returns nil, and lists exactly the Pokédex keys (none when it is empty) |
| `Repl.Config.Dispatch` | main.go:269-277 | the new state and step are exactly those of `Commands.DispatchLine` on the old state |
| `Repl.Config.Prompt` | main.go:265-278 | over a finite list of input lines, the final state is that of `Commands.Replay`: one dispatch per line, stopping after exit |

## Left out

- HTTP (`http.Get`), `io.ReadAll` and `resp.Body.Close` are network I/O. They are the `net` parameter, whose outcome is a failed request, a failed read or a body.
- `json.Unmarshal` is a foreign library. It is one decoder function per response layout, given as a parameter. The record types keep only the fields the commands use or print.
- All printed output is left out as terminal UI. That covers the location names listed by `map`/`mapb`, the encounters listed by `explore`, the cache hit/miss messages (kept only as the `hit` flag), and `help`'s listing, whose order follows Go's unspecified map order. `inspect` and `pokedex` return what they would show.
- `os.Exit` in `exit` is process control. Dispatching `exit` is a step the prompt loop stops at.
- The prompt loop in the source never ends by itself and reads standard input. It is modelled over a finite list of input lines. The prompt string and `bufio.Scanner` are not modelled.
- `rand.Seed`/`rand.Intn` are randomness. The roll is a `Roll` parameter in `[0, 100)`.
- The cache package's time-based expiry, background sweep, locking and the 10-second lifetime given at construction are left out. That package's code is not part of this model, and expiry is time and concurrency behaviour.
- Commands.ReplayOnlyGrows: "no cache entry disappears" holds only for this cache without expiry. With the sweep, entries older than their lifetime vanish between commands.
- Commands.ReplayKeepsConsistent: holds for a server whose answers do not change over the session. A changing server can make the cache disagree with it, and then a hit returns the old body.
- Text.ToLower: Unicode case mapping beyond the ASCII letters is not modelled, because Go's Unicode tables are not part of this model. White space is Go's full set.
- Commands.Caught: "`BaseExperience <= 0` always catches" is stated only above MinInt64+100. Below that, the source's 64-bit subtraction wraps and nothing is caught.
- Go's `int` is platform dependent. It is modelled as 64 bits.
- Error values carry only a reason string. Go's `error` values are not modelled further.
