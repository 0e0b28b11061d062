/** The collaborators the gatekeeper talks to: the directory service
    (`stream.DirCreateChecker`), the tutorial store (`rtutorial.Finder`), the
    stable-version endpoint and the terminal. Their answers are inputs; what
    the gatekeeper asks of them is recorded, in order, in a call trace. */
module Environment {
  import opened Wrappers

  /** One line written to the terminal. */
  datatype Line =
    | Plain(text: string)                                    // fmt.Println
    | Info(text: string)                                     // prompt.Info
    | VersionNotice(stable: Result<string>, current: string) // prompt.Warning of the message
                                                             // version.VerifyNewVersion builds
                                                             // from the fetch and the running version

  /** One request to a collaborator. */
  datatype Call =
    | DirCreate(path: string)
    | DirExists(path: string)
    | TutorialFind
    | StableFetch(url: string, timeoutSeconds: nat)

  /** A snapshot of everything outside the gatekeeper. */
  datatype World = World(
    paths: set<string>,          // directories that exist
    createError: Option<string>, // what dir.Create fails with, if it fails
    tutorial: Result<string>,    // what rt.Find answers (the holder's Current field)
    stable: Result<string>,      // what the stable-version fetch answers
    out: seq<Line>,              // terminal output so far
    calls: seq<Call>)            // collaborator requests so far

  /** A world after a request, with the request's answer. */
  datatype Answer<T> = Answer(world: World, value: T)

  /** dir.Create: makes `path` exist unless creation fails. */
  function CreateStep(w: World, path: string): Answer<Option<string>>
  {
    var w' := w.(calls := w.calls + [DirCreate(path)]);
    if w.createError.None? then Answer(w'.(paths := w.paths + {path}), None)
    else Answer(w', w.createError)
  }

  /** dir.Exists: asks whether `path` exists; changes nothing else. */
  function ExistsStep(w: World, path: string): Answer<bool>
  {
    Answer(w.(calls := w.calls + [DirExists(path)]), path in w.paths)
  }

  /** rt.Find: reads the tutorial status. */
  function FindStep(w: World): Answer<Result<string>>
  {
    Answer(w.(calls := w.calls + [TutorialFind]), w.tutorial)
  }

  /** One GET of the stable-version URL with the given timeout. */
  function FetchStep(w: World, url: string, timeoutSeconds: nat): Answer<Result<string>>
  {
    Answer(w.(calls := w.calls + [StableFetch(url, timeoutSeconds)]), w.stable)
  }

  /** Writes one line to the terminal. */
  function PrintStep(w: World, line: Line): World
  {
    w.(out := w.out + [line])
  }

  /** The collaborators as one object whose state the gatekeeper changes. */
  class Env {
    var paths: set<string>
    const createError: Option<string>
    const tutorial: Result<string>
    const stable: Result<string>
    var out: seq<Line>
    var calls: seq<Call>

    function State(): World
      reads this
    {
      World(paths, createError, tutorial, stable, out, calls)
    }

    constructor (w: World)
      ensures State() == w
    {
      paths, createError, tutorial, stable := w.paths, w.createError, w.tutorial, w.stable;
      out, calls := w.out, w.calls;
    }

    method Create(path: string) returns (err: Option<string>)
      modifies this
      ensures Answer(State(), err) == CreateStep(old(State()), path)
    {
      calls := calls + [DirCreate(path)];
      err := createError;
      if err.None? {
        paths := paths + {path};
      }
    }

    method Exists(path: string) returns (b: bool)
      modifies this
      ensures Answer(State(), b) == ExistsStep(old(State()), path)
    {
      calls := calls + [DirExists(path)];
      b := path in paths;
    }

    method Find() returns (r: Result<string>)
      modifies this
      ensures Answer(State(), r) == FindStep(old(State()))
    {
      calls := calls + [TutorialFind];
      r := tutorial;
    }

    method Fetch(url: string, timeoutSeconds: nat) returns (r: Result<string>)
      modifies this
      ensures Answer(State(), r) == FetchStep(old(State()), url, timeoutSeconds)
    {
      calls := calls + [StableFetch(url, timeoutSeconds)];
      r := stable;
    }

    method Println(line: Line)
      modifies this
      ensures State() == PrintStep(old(State()), line)
    {
      out := out + [line];
    }
  }
}
