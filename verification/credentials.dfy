/** How `connectToDatabase` turns the environment into credentials before
    it ever calls the driver. */
module Credentials {
  import opened Basics
  import opened PhpStrings
  import opened EnvLoader

  /** The connect descriptor used when `DB_DSN` is unset, empty or "0". */
  const DefaultDsn: string :=
    "(DESCRIPTION=(ADDRESS=(PROTOCOL=TCP)(HOST=oracle.scs.ryerson.ca)(PORT=1521))(CONNECT_DATA=(SID=orcl)))"

  /** What `oci_connect` is called with. */
  datatype Config = Config(user: string, pass: string, dsn: string)

  /** Either the credentials, or the fatal "missing DB_USER/DB_PASS" case. */
  datatype Resolution = Resolved(config: Config) | MissingCreds

  /** PHP `getenv($name)`: the value, or `false` (None) when unset. */
  function GetEnv(env: Env, name: string): Option<string> {
    if name in env then Some(env[name]) else None
  }

  /** True when `getenv($name)` gives a value PHP does not treat as false. */
  predicate Filled(env: Env, name: string) {
    Truthy(GetEnv(env, name))
  }

  /** Reads `DB_USER`, `DB_PASS` and `DB_DSN` through `?:`; an empty user or
      password is fatal, an empty descriptor falls back to the default. */
  function Resolve(env: Env): (r: Resolution)
    ensures r.MissingCreds? <==> !Filled(env, "DB_USER") || !Filled(env, "DB_PASS")
    ensures r.Resolved? ==>
      && r.config.user == env["DB_USER"]
      && r.config.pass == env["DB_PASS"]
      && r.config.dsn == (if Filled(env, "DB_DSN") then env["DB_DSN"] else DefaultDsn)
    ensures r.Resolved? ==> r.config.user != "" && r.config.pass != "" && r.config.dsn != ""
  {
    var user := Elvis(GetEnv(env, "DB_USER"), "");
    var pass := Elvis(GetEnv(env, "DB_PASS"), "");
    var dsn := Elvis(GetEnv(env, "DB_DSN"), DefaultDsn);
    if user == "" || pass == "" then MissingCreds
    else Resolved(Config(user, pass, dsn))
  }

  /** A user name of "0" is as good as none: PHP's `?:` turns it into "". */
  lemma ZeroUserIsMissing(env: Env)
    requires "DB_USER" in env && env["DB_USER"] == "0"
    ensures Resolve(env) == MissingCreds
  {
  }
}
