/** The connection settings of a client: where the daemon listens and the
    basic-auth credentials. A `Configuration` is assigned once, when it is
    built, and never changed, so it is modelled as a value. */
module Config {
  import opened Results
  import opened Text

  datatype Configuration = Configuration(url: string, port: int, login: string, password: string)
  {
    function GetUrl(): string { url }

    function GetPort(): int { port }

    function GetLogin(): string { login }

    function GetPassword(): string { password }

    /** The endpoint `<url>:<port>` the transport posts to. */
    function GetUrlAndPort(): (endpoint: string)
      ensures |endpoint| > |url| && endpoint[..|url|] == url && endpoint[|url|] == ':'
      ensures IsCanonicalDecimal(endpoint[|url| + 1..]) && ParseDecimal(endpoint[|url| + 1..]) == port
    {
      var endpoint := GetUrl() + ":" + IntToDecimal(GetPort());
      assert endpoint[|url| + 1..] == IntToDecimal(port);
      DecimalRoundTrip(port);
      endpoint
    }
  }

  /** Each getter returns the value the configuration was built with. */
  lemma GettersReturnConstructorArguments(url: string, port: int, login: string, password: string)
    ensures var c := Configuration(url, port, login, password);
      c.GetUrl() == url && c.GetPort() == port && c.GetLogin() == login && c.GetPassword() == password
  {
  }

  /** Reads an endpoint back: the text before the last ':' and the integer after it. */
  function SplitEndpoint(endpoint: string): Option<(string, int)>
  {
    match LastIndexOf(endpoint, ':')
    case None => None
    case Some(i) =>
      if IsDecimal(endpoint[i + 1..]) then Some((endpoint[..i], ParseDecimal(endpoint[i + 1..]))) else None
  }

  /** The endpoint determines the url and the port: splitting it at its last
      ':' gives both back, whatever the url contains. */
  lemma EndpointRoundTrip(c: Configuration)
    ensures SplitEndpoint(c.GetUrlAndPort()) == Some((c.url, c.port))
  {
    var digits := IntToDecimal(c.port);
    DecimalHasNo(digits, ':');
    LastIndexAfterPrefix(c.url, ':', digits);
    var endpoint := c.GetUrlAndPort();
    assert endpoint == c.url + [':'] + digits;
    assert endpoint[..|c.url|] == c.url;
    assert endpoint[|c.url| + 1..] == digits;
    DecimalRoundTrip(c.port);
  }

  /** The endpoint holds exactly one ':' more than the url: the separator. */
  lemma OneSeparatorInserted(c: Configuration)
    ensures multiset(c.GetUrlAndPort())[':'] == multiset(c.url)[':'] + 1
  {
    var digits := IntToDecimal(c.port);
    DecimalHasNo(digits, ':');
    assert c.GetUrlAndPort() == c.url + [':'] + digits;
    assert multiset(digits)[':'] == 0;
  }
}
