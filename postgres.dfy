/** `PsqlUrl`: the synchronous and asynchronous connection URLs of the Postgres
    database, built by concatenation from the user, password, host, port and
    database name, and the mapping from the settings object onto those. */
module Postgres {
  import opened Python

  const SyncScheme := "postgresql+psycopg://"
  const AsyncScheme := "postgresql+asyncpg://"
  const DefaultPort := 5432

  /** The database fields of the settings object, already read from the
      environment. */
  datatype Settings = Settings(
    postgresUser: string,
    postgresPassword: string,
    postgresDb: string,
    postgresPort: int,
    postgresHost: string)

  /** What follows the scheme in both URLs: "user:password@host:port/name". */
  function UrlTail(user: string, password: string, host: string, port: int, name: string): (r: string)
    ensures |r| == |user| + |password| + |host| + |Str(port)| + |name| + 4
    ensures EndsWith(r, name)
  {
    user + ":" + password + "@" + host + ":" + Str(port) + "/" + name
  }

  /** Both URLs carry the same text after "://", and differ in their scheme. */
  lemma UrlsShareTail(user: string, password: string, host: string, port: int, name: string)
    ensures var loc := UrlTail(user, password, host, port, name);
            var sync := SyncScheme + loc;
            var async := AsyncScheme + loc;
            && sync[|SyncScheme|..] == async[|AsyncScheme|..] == loc
            && sync[..|SyncScheme| - 3] == "postgresql+psycopg"
            && async[..|AsyncScheme| - 3] == "postgresql+asyncpg"
            && sync != async
  {
    var loc := UrlTail(user, password, host, port, name);
    assert (SyncScheme + loc)[11] == 'p';
    assert (AsyncScheme + loc)[11] == 'a';
  }

  class PsqlUrl {
    var name: string
    var syncUrl: string
    var asyncUrl: string

    constructor (user: string, password: string, host: string, name: string, port: int := DefaultPort)
      ensures this.name == name
      ensures syncUrl == "postgresql+psycopg://" + UrlTail(user, password, host, port, name)
      ensures asyncUrl == "postgresql+asyncpg://" + UrlTail(user, password, host, port, name)
    {
      this.name := name;
      syncUrl := SyncScheme + UrlTail(user, password, host, port, name);
      asyncUrl := AsyncScheme + UrlTail(user, password, host, port, name);
    }

    /** `create_using_settings`: user, password, host, database name and port
        come from the matching settings fields. */
    static method CreateUsingSettings(settings: Settings) returns (url: PsqlUrl)
      ensures fresh(url)
      ensures url.name == settings.postgresDb
      ensures url.syncUrl == SyncScheme + UrlTail(settings.postgresUser, settings.postgresPassword,
                                                   settings.postgresHost, settings.postgresPort,
                                                   settings.postgresDb)
      ensures url.asyncUrl == AsyncScheme + UrlTail(settings.postgresUser, settings.postgresPassword,
                                                     settings.postgresHost, settings.postgresPort,
                                                     settings.postgresDb)
    {
      url := new PsqlUrl(user := settings.postgresUser, password := settings.postgresPassword,
                         host := settings.postgresHost, name := settings.postgresDb,
                         port := settings.postgresPort);
    }
  }

  /** With the port left out, the URLs use 5432. */
  method DefaultPortExample(user: string, password: string, host: string, name: string)
    returns (url: PsqlUrl)
    ensures url.syncUrl == SyncScheme + (user + ":" + password + "@" + host + ":" + "5432" + "/" + name)
    ensures url.asyncUrl == AsyncScheme + (user + ":" + password + "@" + host + ":" + "5432" + "/" + name)
  {
    url := new PsqlUrl(user, password, host, name);
    assert Str(5432) == "5432";
  }
}
