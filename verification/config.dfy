/** Process configuration read from the environment at import time, and the
    start-up guard of the script's entry point. */
module Config {
  import opened Results

  /** The environment variables the script reads; an unset variable is `None`. */
  datatype Environment = Environment(
    appId: Option<string>,
    appSecret: Option<string>,
    userId: Option<string>,
    home: Option<string>)

  /** The credentials once the start-up guard has let them through. */
  datatype Credentials = Credentials(appId: string, appSecret: string, userId: string)

  const MissingCredentials: string :=
    "APP_ID, APP_SECRET and USER_ID environement variables must be defined!"
    + "- See Readme for more information on this issue."

  const PlaylistSubdir: string := "/.cache/spotify-to-mp3/playlists/"

  /** Python truthiness of an optional string: set and non-empty. */
  predicate Truthy(v: Option<string>) {
    v.Some? && v.value != ""
  }

  /** The guard at the top of the entry point: it raises unless all three
      credentials are set and non-empty, before any server, browser or
      network action. */
  function CheckEnvironment(env: Environment): (r: Result<Credentials, string>)
    ensures r.Success? <==> Truthy(env.appId) && Truthy(env.appSecret) && Truthy(env.userId)
    ensures r.Success? ==>
      && Some(r.value.appId) == env.appId
      && Some(r.value.appSecret) == env.appSecret
      && Some(r.value.userId) == env.userId
    ensures r.Success? ==> r.value.appId != "" && r.value.appSecret != "" && r.value.userId != ""
    ensures r.Failure? ==> r.error == MissingCredentials
  {
    if !Truthy(env.appId) || !Truthy(env.appSecret) || !Truthy(env.userId) then
      Failure(MissingCredentials)
    else
      Success(Credentials(env.appId.value, env.appSecret.value, env.userId.value))
  }

  /** The output directory: `HOME` formatted into a fixed sub-path. Python's
      `format` renders an unset `HOME` as the text `None`. */
  function PlaylistDir(home: Option<string>): (dir: string)
    ensures |dir| >= |PlaylistSubdir| && dir[|dir| - |PlaylistSubdir|..] == PlaylistSubdir
    ensures dir[|dir| - 1] == '/'
    ensures home.Some? ==> |dir| == |home.value| + |PlaylistSubdir| && dir[..|home.value|] == home.value
    ensures home.None? ==> |dir| == 4 + |PlaylistSubdir| && dir[..4] == "None"
  {
    (if home.Some? then home.value else "None") + PlaylistSubdir
  }
}
