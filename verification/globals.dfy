/** The process-wide `CACHE` object: the OAuth access token and the configuration
    strings, each with a getter and a setter. */
module Globals {
  import opened Wrappers

  class Cache {
    var accessToken: Option<string>
    var nyplDataApiBaseUrl: string
    var holdRequestSchemaName: string
    var resultStreamName: string
    var scsbApiBaseUrl: string
    var scsbApiKey: string

    /** The module's initial state: no token, every configuration string empty. */
    constructor ()
      ensures accessToken == None
      ensures nyplDataApiBaseUrl == "" && holdRequestSchemaName == "" && resultStreamName == ""
      ensures scsbApiBaseUrl == "" && scsbApiKey == ""
    {
      accessToken := None;
      nyplDataApiBaseUrl := "";
      holdRequestSchemaName := "";
      resultStreamName := "";
      scsbApiBaseUrl := "";
      scsbApiKey := "";
    }

    method GetAccessToken() returns (token: Option<string>)
      ensures token == accessToken
    {
      token := accessToken;
    }

    method SetAccessToken(token: Option<string>)
      modifies this`accessToken
      ensures accessToken == token
    {
      accessToken := token;
    }

    method GetNyplDataApiBaseUrl() returns (url: string)
      ensures url == nyplDataApiBaseUrl
    {
      url := nyplDataApiBaseUrl;
    }

    method SetNyplDataApiBaseUrl(url: string)
      modifies this`nyplDataApiBaseUrl
      ensures nyplDataApiBaseUrl == url
    {
      nyplDataApiBaseUrl := url;
    }

    method GetSchemaName() returns (name: string)
      ensures name == holdRequestSchemaName
    {
      name := holdRequestSchemaName;
    }

    method SetSchemaName(name: string)
      modifies this`holdRequestSchemaName
      ensures holdRequestSchemaName == name
    {
      holdRequestSchemaName := name;
    }

    method GetResultStreamName() returns (name: string)
      ensures name == resultStreamName
    {
      name := resultStreamName;
    }

    method SetResultStreamName(name: string)
      modifies this`resultStreamName
      ensures resultStreamName == name
    {
      resultStreamName := name;
    }

    method GetSCSBApiBaseUrl() returns (url: string)
      ensures url == scsbApiBaseUrl
    {
      url := scsbApiBaseUrl;
    }

    method SetSCSBApiBaseUrl(url: string)
      modifies this`scsbApiBaseUrl
      ensures scsbApiBaseUrl == url
    {
      scsbApiBaseUrl := url;
    }

    method GetSCSBApiKey() returns (key: string)
      ensures key == scsbApiKey
    {
      key := scsbApiKey;
    }

    method SetSCSBApiKey(key: string)
      modifies this`scsbApiKey
      ensures scsbApiKey == key
    {
      scsbApiKey := key;
    }
  }

  /** What a caller can rely on from the contracts alone: each getter returns the
      value of the last call to its own setter, whatever the other setters did
      in between, and reading changes nothing. */
  method LastWriteWins(cache: Cache, t1: Option<string>, t2: Option<string>, url: string, key: string)
      returns (token: Option<string>, readUrl: string, readKey: string)
    modifies cache
    ensures token == t2 && readUrl == url && readKey == key
    ensures cache.resultStreamName == old(cache.resultStreamName)
    ensures cache.holdRequestSchemaName == old(cache.holdRequestSchemaName)
    ensures cache.nyplDataApiBaseUrl == old(cache.nyplDataApiBaseUrl)
  {
    cache.SetAccessToken(t1);
    cache.SetSCSBApiBaseUrl(url);
    cache.SetAccessToken(t2);
    cache.SetSCSBApiKey(key);
    token := cache.GetAccessToken();
    readUrl := cache.GetSCSBApiBaseUrl();
    readKey := cache.GetSCSBApiKey();
  }
}
