/** The decidable parts of the server entry point: choosing which `.env`
    file to load, the PORT, CORS origin and MongoDB URI settings read from
    the environment, and the process-wide guard that lets the server listen
    only once. */
module Server {
  import opened Js
  import JsString

  /** `process.env`: a variable that is not in the map is `undefined`. */
  type Env = map<string, string>

  function Lookup(env: Env, name: string): Option<string> {
    if name in env then Some(env[name]) else None
  }

  // ---------- .env candidate selection ----------

  /** The three candidate files, in the order they are tried; `resolve`
      stands for `path.resolve`. */
  function Candidates(cwd: string, dirname: string, resolve: (string, string) -> string): (r: seq<string>)
    ensures |r| == 3
    ensures r[0] == resolve(cwd, ".env")
    ensures r[1] == resolve(dirname, "../.env") && r[2] == resolve(dirname, "../../.env")
  {
    [resolve(cwd, ".env"), resolve(dirname, "../.env"), resolve(dirname, "../../.env")]
  }

  /** The index of the first candidate at or after `from` that exists. */
  function FirstExistingFrom(candidates: seq<string>, existsSync: string -> bool, from: nat): (r: Option<nat>)
    requires from <= |candidates|
    ensures r.Some? ==>
      && from <= r.value < |candidates|
      && existsSync(candidates[r.value])
      && forall k :: from <= k < r.value ==> !existsSync(candidates[k])
    ensures r.None? ==> forall k :: from <= k < |candidates| ==> !existsSync(candidates[k])
    decreases |candidates| - from
  {
    if from == |candidates| then None
    else if existsSync(candidates[from]) then Some(from)
    else FirstExistingFrom(candidates, existsSync, from + 1)
  }

  /** The index of the first candidate that exists, if any. */
  function FirstExisting(candidates: seq<string>, existsSync: string -> bool): Option<nat> {
    FirstExistingFrom(candidates, existsSync, 0)
  }

  /** The `.env` loading loop: `existsSync` stands for `fs.existsSync` and
      `configured` records the paths handed to `dotenv.config`. At most one
      file is loaded, the first existing candidate, and `loaded` is false
      exactly when no candidate exists. */
  method LoadEnv(candidates: seq<string>, existsSync: string -> bool) returns (loaded: bool, configured: seq<string>)
    ensures |configured| <= 1
    ensures loaded <==> configured != []
    ensures !loaded <==> forall k :: 0 <= k < |candidates| ==> !existsSync(candidates[k])
    ensures loaded ==>
      FirstExisting(candidates, existsSync).Some? &&
      configured == [candidates[FirstExisting(candidates, existsSync).value]]
  {
    loaded := false;
    configured := [];
    var i := 0;
    while i < |candidates|
      invariant 0 <= i <= |candidates|
      invariant !loaded && configured == []
      invariant forall k :: 0 <= k < i ==> !existsSync(candidates[k])
    {
      var p := candidates[i];
      if existsSync(p) {
        configured := configured + [p];
        loaded := true;
        break;
      }
      i := i + 1;
    }
  }

  /** The `.env` step of the entry point: the loop run over the program's
      own three candidates. The file in the working directory wins, then
      `../.env` and then `../../.env` beside the compiled module. */
  method LoadDotEnv(cwd: string, dirname: string, resolve: (string, string) -> string, existsSync: string -> bool)
    returns (loaded: bool, configured: seq<string>)
    ensures |configured| <= 1
    ensures loaded <==> configured != []
    ensures existsSync(resolve(cwd, ".env")) ==> configured == [resolve(cwd, ".env")]
    ensures !existsSync(resolve(cwd, ".env")) && existsSync(resolve(dirname, "../.env")) ==>
      configured == [resolve(dirname, "../.env")]
    ensures (!existsSync(resolve(cwd, ".env")) && !existsSync(resolve(dirname, "../.env"))
             && existsSync(resolve(dirname, "../../.env"))) ==>
      configured == [resolve(dirname, "../../.env")]
    ensures !loaded <==>
      (!existsSync(resolve(cwd, ".env")) && !existsSync(resolve(dirname, "../.env"))
       && !existsSync(resolve(dirname, "../../.env")))
  {
    var candidates := Candidates(cwd, dirname, resolve);
    loaded, configured := LoadEnv(candidates, existsSync);
    if loaded {
      var k := FirstExisting(candidates, existsSync).value;
      assert k == 0 || !existsSync(candidates[0]);
      assert k <= 1 || !existsSync(candidates[1]);
    }
  }

  // ---------- PORT ----------

  const DefaultPort: nat := 5000

  /** The argument of `Number(...)` in `Number(process.env.PORT || 5000)`:
      the PORT text when it is truthy, otherwise the number 5000. The
      string-to-number conversion is not modelled. */
  datatype PortSetting = PortText(text: string) | PortNumber(number: nat)

  function Port(env: Env): (r: PortSetting)
    ensures r == PortNumber(DefaultPort) <==> !Truthy(Lookup(env, "PORT"))
    ensures Truthy(Lookup(env, "PORT")) ==> r == PortText(env["PORT"])
    ensures r.PortText? ==> "PORT" in env && r.text == env["PORT"] && r.text != ""
  {
    var v := Lookup(env, "PORT");
    if Truthy(v) then PortText(v.value) else PortNumber(DefaultPort)
  }

  // ---------- CORS origins ----------

  const DefaultCorsOrigins: seq<string> := ["http://localhost:4200", "http://127.0.0.1:4200"]

  /** `process.env.CORS_ORIGIN?.split(",").map((s) => s.trim()) || defaults`:
      the defaults only when CORS_ORIGIN is undefined, since the array a split
      returns is always truthy; otherwise one trimmed origin per
      comma-separated piece, in order. */
  function CorsOrigins(env: Env): (r: seq<string>)
    ensures "CORS_ORIGIN" !in env ==> r == DefaultCorsOrigins
    ensures "CORS_ORIGIN" in env ==>
      var pieces := JsString.Split(env["CORS_ORIGIN"], ',');
      && |r| == JsString.Count(env["CORS_ORIGIN"], ',') + 1
      && |r| == |pieces|
      && forall i :: 0 <= i < |r| ==> r[i] == JsString.Trim(pieces[i])
  {
    match Lookup(env, "CORS_ORIGIN")
    case None => DefaultCorsOrigins
    case Some(v) =>
      var pieces := JsString.Split(v, ',');
      JsString.SplitCount(v, ',');
      seq(|pieces|, i requires 0 <= i < |pieces| => JsString.Trim(pieces[i]))
  }

  /** A CORS_ORIGIN that is defined but empty yields the single empty
      origin, not the defaults. */
  lemma CorsOriginEmpty(env: Env)
    requires "CORS_ORIGIN" in env && env["CORS_ORIGIN"] == ""
    ensures CorsOrigins(env) == [""]
  {
  }

  /** When CORS_ORIGIN holds no whitespace, joining the origins with commas
      gives back CORS_ORIGIN, and no origin contains a comma. */
  lemma CorsOriginsRejoin(env: Env)
    requires "CORS_ORIGIN" in env
    requires forall k :: 0 <= k < |env["CORS_ORIGIN"]| ==> !JsString.IsWhitespace(env["CORS_ORIGIN"][k])
    ensures JsString.Join(CorsOrigins(env), ',') == env["CORS_ORIGIN"]
    ensures forall i :: 0 <= i < |CorsOrigins(env)| ==> ',' !in CorsOrigins(env)[i]
  {
    var v := env["CORS_ORIGIN"];
    var pieces := JsString.Split(v, ',');
    JsString.JoinSplit(v, ',');
    JsString.SplitPiecesWithoutSeparator(v, ',');
    JsString.SplitPiecesWithoutWhitespace(v, ',');
    forall i | 0 <= i < |pieces|
      ensures JsString.Trim(pieces[i]) == pieces[i]
    {
      JsString.TrimWithoutWhitespace(pieces[i]);
    }
    assert CorsOrigins(env) == pieces;
  }

  // ---------- MongoDB URI ----------

  const DefaultMongoUri: string := "mongodb://localhost:27017/taxpal"

  /** `MONGODB_URI || MONGO_URI || default`: the first truthy value of the
      two variables, else the local default; never the empty string. */
  function MongoUri(env: Env): (r: string)
    ensures Truthy(Lookup(env, "MONGODB_URI")) ==> r == env["MONGODB_URI"]
    ensures !Truthy(Lookup(env, "MONGODB_URI")) && Truthy(Lookup(env, "MONGO_URI")) ==> r == env["MONGO_URI"]
    ensures !Truthy(Lookup(env, "MONGODB_URI")) && !Truthy(Lookup(env, "MONGO_URI")) ==> r == DefaultMongoUri
    ensures r != ""
  {
    Or(Lookup(env, "MONGODB_URI"), Or(Lookup(env, "MONGO_URI"), Some(DefaultMongoUri))).value
  }

  // ---------- start-once guard ----------

  /** The shutdown signals `start` registers a handler for. */
  datatype Signal = SIGINT | SIGTERM

  /** What the guarded start step does that can be observed. */
  datatype Event =
    | Listening(port: PortSetting)   // the listen callback's "running" line
    | MailerVerifyFailed             // verifyMailer threw; the caught error's warning
    | ListenSkipped                  // "listen skipped (already started)"

  /** The process as the start step sees it: the global
      `__taxpal_server_started` flag, the number of listening sockets
      opened, the signal handlers registered and the events so far. */
  class Process {
    var started: bool
    var listeners: nat
    var handlers: seq<Signal>
    var log: seq<Event>

    /** The flag is set exactly when the one socket has been opened and
        both shutdown handlers registered. */
    ghost predicate Valid()
      reads this
    {
      && listeners <= 1
      && (started <==> listeners == 1)
      && handlers == (if started then [SIGINT, SIGTERM] else [])
    }

    /** A fresh process: the flag is `undefined`, hence falsy. */
    constructor ()
      ensures Valid() && !started && log == []
    {
      started := false;
      listeners := 0;
      handlers := [];
      log := [];
    }

    /** The guarded start step; the listen callback is taken to run before
        any later call. `mailerThrows` says whether `verifyMailer` throws.
        A first call listens, registers SIGINT and SIGTERM, and then its
        listen callback sets the flag and checks the mailer; any later call
        only logs a skip. The flag is never reset. */
    method Start(port: PortSetting, mailerThrows: bool)
      requires Valid()
      modifies this
      ensures Valid() && started
      ensures old(started) ==>
        listeners == old(listeners) && handlers == old(handlers) && log == old(log) + [ListenSkipped]
      ensures !old(started) ==>
        && listeners == 1 && handlers == [SIGINT, SIGTERM]
        && log == old(log) + [Listening(port)] + (if mailerThrows then [MailerVerifyFailed] else [])
    {
      if !started {
        listeners := listeners + 1;
        handlers := handlers + [SIGINT, SIGTERM];
        // the listen callback, which fires once the synchronous code is done
        started := true;
        log := log + [Listening(port)];
        if mailerThrows {
          log := log + [MailerVerifyFailed];
        }
      } else {
        log := log + [ListenSkipped];
      }
    }
  }

  /** Starting a fresh process twice opens one socket, registers the two
      handlers once, and logs a skip for the second call. */
  method StartTwice(port: PortSetting, firstMailerThrows: bool, secondMailerThrows: bool)
    returns (listeners: nat, handlers: seq<Signal>, log: seq<Event>)
    ensures listeners == 1 && handlers == [SIGINT, SIGTERM]
    ensures log == [Listening(port)] + (if firstMailerThrows then [MailerVerifyFailed] else []) + [ListenSkipped]
  {
    var proc := new Process();
    proc.Start(port, firstMailerThrows);
    proc.Start(port, secondMailerThrows);
    listeners, handlers, log := proc.listeners, proc.handlers, proc.log;
  }
}
