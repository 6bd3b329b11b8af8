/**
 Server addresses and message endpoints: the address a connection is made to, the
 absolute form of an announced endpoint, and the split of that form for a POST.
 */
module EndpointUrls {
  import opened Decimals

  // ----- searching, with the length of the string standing for "not found" -----

  function Find(s: string, c: char): (k: nat)
    ensures k <= |s| && c !in s[..k] && (k < |s| ==> s[k] == c)
  {
    if s == [] || s[0] == c then 0 else
      var k := Find(s[1..], c);
      assert s[..k + 1] == [s[0]] + s[1..][..k];
      k + 1
  }

  function FindLast(s: string, c: char): (k: nat)
    ensures k <= |s|
    ensures if k < |s| then s[k] == c && c !in s[k + 1..] else c !in s
  {
    if s == [] then 0
    else if s[|s| - 1] == c then |s| - 1
    else
      var front := s[..|s| - 1];
      var k := FindLast(front, c);
      assert s == front + [s[|s| - 1]];
      if k == |front| then |s| else
        assert s[k + 1..] == front[k + 1..] + [s[|s| - 1]];
        k
  }

  const MARK := "://"

  function FindMark(s: string): (k: nat)
    ensures k < |s| ==> MARK <= s[k..]
    ensures k <= |s| && forall i :: 0 <= i < k ==> !(MARK <= s[i..])
  {
    if s == [] || MARK <= s then 0 else
      var k := FindMark(s[1..]);
      assert k < |s[1..]| ==> s[1..][k..] == s[k + 1..];
      assert forall i :: 0 < i < k + 1 ==> s[i..] == s[1..][i - 1..];
      k + 1
  }

  // ----- numbers -----

  datatype Thrown = InvalidArgument | OutOfRange
  datatype Parsed = Number(value: int) | Failed(thrown: Thrown)

  predicate IsSpace(c: char) { c == ' ' || '\t' <= c <= '\r' }

  function SkipSpace(s: string): string {
    if s != [] && IsSpace(s[0]) then SkipSpace(s[1..]) else s
  }

  function LeadingDigits(s: string): (d: string)
    ensures AllDigits(d) && d <= s
  {
    if s != [] && IsDigit(s[0]) then [s[0]] + LeadingDigits(s[1..]) else []
  }

  const INT_MAX := 0x7fff_ffff

  /** std::stoi: spaces, a sign, digits, and whatever follows them. */
  function Stoi(s: string): Parsed {
    var t := SkipSpace(s);
    var negative := t != [] && t[0] == '-';
    var digits := LeadingDigits(if t != [] && (t[0] == '-' || t[0] == '+') then t[1..] else t);
    if digits == [] then Failed(InvalidArgument)
    else
      var value := if negative then 0 - Numeral(digits) else Numeral(digits);
      if -INT_MAX - 1 <= value <= INT_MAX then Number(value) else Failed(OutOfRange)
  }

  function UInt16(value: int): (port: nat) { value % 0x1_0000 }

  function DefaultPort(tls: bool): nat { if tls then 443 else 80 }

  // ----- the address of the server -----

  datatype Server = Server(host: string, port: nat)

  /** The host and port named by a configured address, before the localhost rewrite. */
  function Named(address: string, tls: bool): Server {
    var colon := FindLast(address, ':');
    if colon == |address| then Server(address, DefaultPort(tls))
    else
      var digits := address[colon + 1..];
      if digits == [] || !AllDigits(digits) then Server(address, DefaultPort(tls))
      else match Stoi(digits)
        case Number(value) => if value >= 0 then Server(address[..colon], value) else Server(address, DefaultPort(tls))
        case Failed(_) => Server(address, DefaultPort(tls))
  }

  /** The host and port a connection is opened to. */
  function ServerAddress(address: string, tls: bool): Server {
    var named := Named(address, tls);
    if named.host == "localhost" then named.(host := "127.0.0.1") else named
  }

  // ----- the message endpoint -----

  predicate IsAbsolute(endpoint: string) { FindMark(endpoint) < |endpoint| }

  function AbsolutePath(endpoint: string): (path: string)
    ensures path != [] && path[0] == '/'
  {
    if endpoint == [] || endpoint[0] != '/' then "/" + endpoint else endpoint
  }

  function Scheme(tls: bool): string { if tls then "https" else "http" }

  function Resolve(endpoint: string, address: string, tls: bool): string {
    if IsAbsolute(endpoint) || address == [] then endpoint
    else Scheme(tls) + MARK + address + AbsolutePath(endpoint)
  }

  /** Where a POST goes; NoUrl is reported as a failure, Threw escapes the call. */
  datatype Post = To(tls: bool, host: string, port: nat, path: string) | NoUrl | Threw(thrown: Thrown)

  function Split(url: string): Post {
    var mark := FindMark(url);
    if mark == |url| then NoUrl else SplitAfter(url[..mark] != "http", url[mark + 3..])
  }

  function SplitAfter(tls: bool, rest: string): Post {
    var slash := Find(rest, '/');
    SplitAuthority(tls, rest[..slash], if slash == |rest| then "/" else rest[slash..])
  }

  function SplitAuthority(tls: bool, authority: string, path: string): Post {
    var colon := Find(authority, ':');
    if colon == |authority| then To(tls, authority, DefaultPort(tls), path)
    else match Stoi(authority[colon + 1..])
      case Number(value) => To(tls, authority[..colon], UInt16(value), path)
      case Failed(e) => Threw(e)
  }

  // ----- what the searches find -----

  lemma BeforeNot(s: string, c: char, k: nat)
    requires k <= |s| && c !in s[..k]
    ensures forall i :: 0 <= i < k ==> s[i] != c
  {
    forall i | 0 <= i < k
      ensures s[i] != c
    {
      assert s[i] in s[..k];
    }
  }

  lemma FindUnique(s: string, c: char, k: nat)
    requires k < |s| && s[k] == c && c !in s[..k]
    ensures Find(s, c) == k
  {
    BeforeNot(s, c, k);
    BeforeNot(s, c, Find(s, c));
  }

  lemma FindLastUnique(s: string, c: char, k: nat)
    requires k < |s| && s[k] == c && c !in s[k + 1..]
    ensures FindLast(s, c) == k
  {
    hide FindLast;
    var f := FindLast(s, c);
    assert c in s;
    assert forall i :: k < i < |s| ==> s[i] in s[k + 1..];
    assert forall i :: f < i < |s| ==> s[i] in s[f + 1..];
  }

  lemma FindNothing(s: string, c: char)
    requires c !in s
    ensures Find(s, c) == |s|
  {
  }

  lemma MarkAfterScheme(tls: bool, rest: string)
    ensures FindMark(Scheme(tls) + MARK + rest) == |Scheme(tls)|
  {
    var s := Scheme(tls) + MARK + rest;
    var n := |Scheme(tls)|;
    assert s[n..] == MARK + rest;
    assert forall i :: 0 <= i < n ==> s[i..][0] == Scheme(tls)[i] != ':';
  }

  lemma {:induction false} LeadingDigitsAll(s: string)
    requires AllDigits(s)
    ensures LeadingDigits(s) == s
  {
    if s != [] {
      LeadingDigitsAll(s[1..]);
    }
  }

  lemma StoiOfDigits(s: string)
    requires s != [] && AllDigits(s)
    ensures Stoi(s) == if Numeral(s) <= INT_MAX then Number(Numeral(s)) else Failed(OutOfRange)
  {
    hide Numeral;
    assert IsDigit(s[0]) && SkipSpace(s) == s;
    LeadingDigitsAll(s);
  }

  // ----- what the split finds -----

  lemma SchemeCut(tls: bool, rest: string)
    ensures Split(Scheme(tls) + MARK + rest) == SplitAfter(tls, rest)
  {
    hide FindMark, SplitAfter;
    var url := Scheme(tls) + MARK + rest;
    MarkAfterScheme(tls, rest);
    assert url[..|Scheme(tls)|] == Scheme(tls) && url[|Scheme(tls)| + 3..] == rest;
  }

  lemma SlashCut(tls: bool, authority: string, path: string)
    requires '/' !in authority && path != [] && path[0] == '/'
    ensures SplitAfter(tls, authority + path) == SplitAuthority(tls, authority, path)
  {
    hide Find, SplitAuthority;
    var rest := authority + path;
    assert rest[..|authority|] == authority && rest[|authority|..] == path;
    FindUnique(rest, '/', |authority|);
  }

  lemma PortCut(tls: bool, host: string, digits: string, path: string)
    requires ':' !in host && digits != [] && AllDigits(digits)
    ensures SplitAuthority(tls, host + ":" + digits, path)
            == if Numeral(digits) <= INT_MAX then To(tls, host, UInt16(Numeral(digits)), path) else Threw(OutOfRange)
  {
    hide Find, Stoi, Numeral, UInt16;
    var authority := host + ":" + digits;
    assert authority[..|host|] == host && authority[|host| + 1..] == digits;
    FindUnique(authority, ':', |host|);
    StoiOfDigits(digits);
  }

  lemma NamedPort(host: string, digits: string, tls: bool)
    requires digits != [] && AllDigits(digits)
    ensures Named(host + ":" + digits, tls)
            == if Numeral(digits) <= INT_MAX then Server(host, Numeral(digits))
                else Server(host + ":" + digits, DefaultPort(tls))
  {
    hide FindLast, Stoi, Numeral;
    var address := host + ":" + digits;
    assert address[..|host|] == host && address[|host| + 1..] == digits;
    FindLastUnique(address, ':', |host|);
    StoiOfDigits(digits);
  }

  lemma NamedElse(address: string, tls: bool)
    requires ':' in address ==>
               address[FindLast(address, ':') + 1..] == [] || !AllDigits(address[FindLast(address, ':') + 1..])
    ensures Named(address, tls) == Server(address, DefaultPort(tls))
  {
    hide FindLast, Stoi;
  }

  lemma SplitHostPlain(tls: bool, authority: string, path: string)
    ensures var post := SplitAuthority(tls, authority, path);
            post.To? ==> ':' !in post.host && post.path == path && post.tls == tls
    ensures ':' !in authority ==> SplitAuthority(tls, authority, path) == To(tls, authority, DefaultPort(tls), path)
  {
    hide Stoi, UInt16;
    if ':' !in authority {
      FindNothing(authority, ':');
    }
  }

  /** A relative endpoint resolved against an address with no slash splits into the scheme, the address and the path. */
  lemma SplitResolved(endpoint: string, address: string, tls: bool)
    requires !IsAbsolute(endpoint) && address != [] && '/' !in address
    ensures Split(Resolve(endpoint, address, tls)) == SplitAuthority(tls, address, AbsolutePath(endpoint))
  {
    hide Split, SplitAfter, SplitAuthority, IsAbsolute;
    var rest := address + AbsolutePath(endpoint);
    assert Scheme(tls) + MARK + address + AbsolutePath(endpoint) == Scheme(tls) + MARK + rest;
    SchemeCut(tls, rest);
    SlashCut(tls, address, AbsolutePath(endpoint));
  }

  // ----- what is meant without a port, and with numbers of any kind -----

  /** An address without a port means 80, or 443 with TLS; the connection goes to 127.0.0.1 for localhost. */
  lemma AddressWithoutPort(address: string)
    requires ':' !in address
    ensures Named(address, false) == Server(address, 80) && Named(address, true) == Server(address, 443)
    ensures var host := if address == "localhost" then "127.0.0.1" else address;
            && ServerAddress(address, false) == Server(host, 80)
            && ServerAddress(address, true) == Server(host, 443)
  {
    NamedElse(address, false);
    NamedElse(address, true);
  }

  /** Only the host localhost is rewritten, and the port is the one named. */
  lemma OnlyLocalhost(address: string, tls: bool)
    ensures var named, server := Named(address, tls), ServerAddress(address, tls);
            server.port == named.port && server.host == if named.host == "localhost" then "127.0.0.1" else named.host
  {
  }

  /** A URL without a port: plain HTTP goes to 80, any other scheme over TLS to 443; without a path to the root. */
  lemma SplitWithoutPort(scheme: string, host: string, path: string)
    requires ':' !in scheme && '/' !in host && ':' !in host
    requires path == [] || path[0] == '/'
    ensures Split(scheme + "://" + host + path)
            == To(scheme != "http", host, if scheme == "http" then 80 else 443, if path == [] then "/" else path)
  {
    hide FindMark, SplitAfter;
    var url := scheme + "://" + host + path;
    MarkAfter(scheme, host + path);
    assert url == scheme + "://" + (host + path);
    assert url[..|scheme|] == scheme && url[|scheme| + 3..] == host + path;
    SplitHostPlain(scheme != "http", host, if path == [] then "/" else path);
    if path == [] {
      assert host + path == host;
      RootPath(scheme != "http", host);
    } else {
      SlashCut(scheme != "http", host, path);
    }
  }

  /** A relative endpoint, spelled out: the scheme, the address, and the endpoint with a slash in front of it. */
  lemma ResolvedMeaning(endpoint: string, address: string, tls: bool)
    requires !IsAbsolute(endpoint) && address != []
    ensures Resolve(endpoint, address, tls)
            == (if tls then "https://" else "http://") + address
               + if endpoint != "" && endpoint[0] == '/' then endpoint else "/" + endpoint
  {
    assert Scheme(tls) + MARK == if tls then "https://" else "http://";
  }

  lemma RootPath(tls: bool, authority: string)
    requires '/' !in authority
    ensures SplitAfter(tls, authority) == SplitAuthority(tls, authority, "/")
  {
    hide SplitAuthority;
    FindNothing(authority, '/');
    assert authority[..|authority|] == authority;
  }

  lemma MarkAfter(scheme: string, rest: string)
    requires ':' !in scheme
    ensures FindMark(scheme + "://" + rest) == |scheme|
  {
    var s := scheme + "://" + rest;
    assert s[|scheme|..] == "://" + rest;
    assert forall i :: 0 <= i < |scheme| ==> s[i..][0] == scheme[i];
  }

  const SPACES := {' ', '\t', '\n', 11 as char, 12 as char, '\r'}

  /** Spaces, a sign, and digits up to something that is none: their number, unless it is beyond 32 bits. */
  lemma StoiMeaning(spaces: string, sign: string, digits: string, rest: string)
    requires (forall i :: 0 <= i < |spaces| ==> spaces[i] in SPACES) && sign in {"", "+", "-"}
    requires digits != [] && AllDigits(digits) && (rest == [] || !IsDigit(rest[0]))
    ensures var value := if sign == "-" then 0 - Numeral(digits) else Numeral(digits);
            Stoi(spaces + sign + digits + rest)
            == if -2147483648 <= value <= 2147483647 then Number(value) else Failed(OutOfRange)
  {
    hide Numeral;
    var text := sign + digits + rest;
    assert spaces + sign + digits + rest == spaces + text;
    assert IsDigit(digits[0]) && !IsSpace(text[0]);
    SpacesSkipped(spaces, text);
    assert text[|sign|..] == digits + rest;
    DigitsUpTo(digits, rest);
  }

  /** Without a digit there is no number. */
  lemma StoiNothing(spaces: string, sign: string, rest: string)
    requires (forall i :: 0 <= i < |spaces| ==> spaces[i] in SPACES) && sign in {"", "+", "-"}
    requires rest == [] || (!IsDigit(rest[0]) && (sign == "" ==> rest[0] !in SPACES + {'+', '-'}))
    ensures Stoi(spaces + sign + rest) == Failed(InvalidArgument)
  {
    var text := sign + rest;
    assert spaces + sign + rest == spaces + text;
    SpacesSkipped(spaces, text);
    assert text[|sign|..] == rest;
  }

  lemma {:induction false} SpacesSkipped(spaces: string, text: string)
    requires forall i :: 0 <= i < |spaces| ==> spaces[i] in SPACES
    requires text == [] || !IsSpace(text[0])
    ensures SkipSpace(spaces + text) == text
  {
    if spaces == [] {
      assert spaces + text == text;
    } else {
      assert spaces[0] in SPACES && (spaces + text)[1..] == spaces[1..] + text;
      SpacesSkipped(spaces[1..], text);
    }
  }

  lemma {:induction false} DigitsUpTo(digits: string, rest: string)
    requires AllDigits(digits) && (rest == [] || !IsDigit(rest[0]))
    ensures LeadingDigits(digits + rest) == digits
  {
    if digits == [] {
      assert digits + rest == rest;
    } else {
      assert (digits + rest)[1..] == digits[1..] + rest;
      DigitsUpTo(digits[1..], rest);
    }
  }

  /** A POST takes the last 16 bits of its port, a negative one's included. */
  lemma SplitWithNumber(tls: bool, host: string, port: string, path: string)
    requires ':' !in host && '/' !in host + port && path != [] && path[0] == '/'
    ensures Split(Scheme(tls) + MARK + host + ":" + port + path)
            == match Stoi(port)
               case Number(value) => To(tls, host, value % 65536, path)
               case Failed(e) => Threw(e)
  {
    hide Split, SplitAfter, Stoi, Find;
    var authority := host + ":" + port;
    assert '/' !in authority by {
      assert forall i :: 0 <= i < |host| ==> host[i] == (host + port)[i];
      assert forall i :: 0 <= i < |port| ==> port[i] == (host + port)[|host| + i];
    }
    assert Scheme(tls) + MARK + host + ":" + port + path == Scheme(tls) + MARK + (authority + path);
    SchemeCut(tls, authority + path);
    SlashCut(tls, authority, path);
    FindUnique(authority, ':', |host|);
    assert authority[..|host|] == host && authority[|host| + 1..] == port;
  }

  // ----- agreement of the two readings of an address -----

  /** The address with nothing but a host, or with one colon and a port after it that fits a port number. */
  ghost predicate PlainAddress(address: string, sameTls: bool) {
    && '/' !in address
    && (':' !in address ==> sameTls)
    && (':' in address ==>
          var last := FindLast(address, ':');
          && ':' !in address[..last] && address[last + 1..] != [] && AllDigits(address[last + 1..])
          && Numeral(address[last + 1..]) < 0x1_0000)
  }

  /** The POST goes to the host and port the connection was opened to (before the rewrite of localhost). */
  ghost predicate SameServer(post: Post, server: Server) {
    post.To? && post.host == server.host && post.port == server.port
  }

  lemma NamedWithSlash(address: string, tls: bool)
    requires '/' in address
    ensures '/' in Named(address, tls).host
  {
    hide FindLast, Stoi;
    var colon := FindLast(address, ':');
    if colon < |address| && AllDigits(address[colon + 1..]) {
      var k :| 0 <= k < |address| && address[k] == '/';
      assert forall i :: colon < i < |address| ==> address[i] == address[colon + 1..][i - colon - 1];
      assert k < colon;
      assert address[..colon][k] == '/';
    }
  }

  lemma NoSlashInHost(url: string)
    ensures Split(url).To? ==> '/' !in Split(url).host
  {
    hide FindMark, Find, Stoi, UInt16;
  }

  lemma ColonAgrees(host: string, digits: string, tls: bool, connectionTls: bool, path: string)
    requires digits != [] && AllDigits(digits)
    ensures SameServer(SplitAuthority(tls, host + ":" + digits, path), Named(host + ":" + digits, connectionTls))
            <==> ':' !in host && Numeral(digits) < 0x1_0000
  {
    hide SplitAuthority, Named, Numeral;
    var address := host + ":" + digits;
    NamedPort(host, digits, connectionTls);
    SplitHostPlain(tls, address, path);
    assert ':' in address;
    if ':' !in host {
      PortCut(tls, host, digits, path);
    }
  }

  lemma AuthorityAgrees(address: string, tls: bool, connectionTls: bool, path: string)
    requires '/' !in address
    ensures SameServer(SplitAuthority(tls, address, path), Named(address, connectionTls))
            <==> PlainAddress(address, tls == connectionTls)
  {
    hide SplitAuthority, Named, FindLast, Numeral;
    SplitHostPlain(tls, address, path);
    var last := FindLast(address, ':');
    if ':' in address && address[last + 1..] != [] && AllDigits(address[last + 1..]) {
      assert address == address[..last] + ":" + address[last + 1..];
      ColonAgrees(address[..last], address[last + 1..], tls, connectionTls, path);
    } else {
      NamedElse(address, connectionTls);
    }
  }

  /**
   A relative endpoint, resolved and split again for a POST: it names the host and port
   that resolving the server address names exactly for a plain address, and then the
   scheme is the one it was resolved with and the path is the endpoint made absolute.
   */
  lemma EndpointRoundTrip(endpoint: string, address: string, tls: bool, connectionTls: bool)
    requires !IsAbsolute(endpoint) && address != []
    ensures var post, server := Split(Resolve(endpoint, address, tls)), Named(address, connectionTls);
            && (SameServer(post, server) <==> PlainAddress(address, tls == connectionTls))
            && (SameServer(post, server) ==>
                  post == To(tls, server.host, server.port,
                             if endpoint != "" && endpoint[0] == '/' then endpoint else "/" + endpoint))
  {
    hide Split, Resolve, Named, SplitAuthority, IsAbsolute;
    if '/' in address {
      NamedWithSlash(address, connectionTls);
      NoSlashInHost(Resolve(endpoint, address, tls));
    } else {
      SplitResolved(endpoint, address, tls);
      SplitHostPlain(tls, address, AbsolutePath(endpoint));
      AuthorityAgrees(address, tls, connectionTls, AbsolutePath(endpoint));
    }
  }

  lemma NamedLocalhost(address: string, tls: bool, postTls: bool, path: string)
    requires Named(address, tls).host == "localhost"
    ensures '/' !in address
    ensures SplitAuthority(postTls, address, path).To? ==> SplitAuthority(postTls, address, path).host == "localhost"
  {
    hide FindLast, SplitAuthority, Numeral, Stoi;
    var last := FindLast(address, ':');
    if ':' in address && address[last + 1..] != [] && AllDigits(address[last + 1..]) {
      assert address == address[..last] + ":" + address[last + 1..];
      NamedPort(address[..last], address[last + 1..], tls);
      PortCut(postTls, "localhost", address[last + 1..], path);
    } else {
      NamedElse(address, tls);
      SplitHostPlain(postTls, address, path);
    }
  }

  /** With the rewrite of localhost, which only the connection makes, the two differ for localhost too. */
  lemma EndpointAgainstConnection(endpoint: string, address: string, tls: bool, connectionTls: bool)
    requires !IsAbsolute(endpoint) && address != []
    ensures SameServer(Split(Resolve(endpoint, address, tls)), ServerAddress(address, connectionTls))
            <==> PlainAddress(address, tls == connectionTls) && Named(address, connectionTls).host != "localhost"
  {
    hide Split, Resolve, Named, SplitAuthority, IsAbsolute, PlainAddress;
    EndpointRoundTrip(endpoint, address, tls, connectionTls);
    if Named(address, connectionTls).host == "localhost" {
      NamedLocalhost(address, connectionTls, tls, AbsolutePath(endpoint));
      SplitResolved(endpoint, address, tls);
    }
  }

  /**
   An absolute endpoint stays as it is; without a server address a relative one stays relative and
   cannot be posted to.
   */
  lemma EndpointKept(endpoint: string, address: string, tls: bool)
    ensures Split(Resolve(endpoint, address, tls)) == NoUrl <==> !IsAbsolute(endpoint) && address == []
    ensures IsAbsolute(endpoint) || address == [] ==> Resolve(endpoint, address, tls) == endpoint
  {
    hide SplitAfter, FindMark;
    SplitNoUrl(endpoint);
    if !IsAbsolute(endpoint) && address != [] {
      ResolvedIsAbsolute(endpoint, address, tls);
      SplitNoUrl(Resolve(endpoint, address, tls));
    }
  }

  lemma SplitNoUrl(url: string)
    ensures Split(url) == NoUrl <==> !IsAbsolute(url)
  {
    hide FindMark, Find, Stoi, UInt16;
  }

  /** What is resolved once is absolute, so resolving again, against any server, changes nothing. */
  lemma ResolvedIsAbsolute(endpoint: string, address: string, tls: bool)
    requires address != []
    ensures IsAbsolute(Resolve(endpoint, address, tls))
    ensures forall address', tls' ::
              Resolve(Resolve(endpoint, address, tls), address', tls') == Resolve(endpoint, address, tls)
  {
    hide FindMark;
    if !IsAbsolute(endpoint) {
      var rest := address + AbsolutePath(endpoint);
      assert Resolve(endpoint, address, tls) == Scheme(tls) + MARK + rest;
      MarkAfterScheme(tls, rest);
    }
  }

  /** Writing host, port and path as a URL and splitting it gives them back. */
  lemma SplitOfUrl(tls: bool, host: string, port: nat, path: string)
    requires '/' !in host && ':' !in host && port < 0x1_0000
    requires path != [] && path[0] == '/'
    ensures Split(Scheme(tls) + MARK + host + ":" + Decimal(port) + path) == To(tls, host, port, path)
  {
    hide Split, SplitAfter, SplitAuthority, Decimal, Numeral;
    var authority := host + ":" + Decimal(port);
    assert Scheme(tls) + MARK + host + ":" + Decimal(port) + path == Scheme(tls) + MARK + (authority + path);
    assert '/' !in authority;
    SchemeCut(tls, authority + path);
    SlashCut(tls, authority, path);
    PortCut(tls, host, Decimal(port), path);
    NumeralOfDecimal(port);
  }

  /** A port above 65535: the connection is opened to it, the POST to its remainder. */
  lemma LargePort(host: string, port: nat, endpoint: string, tls: bool)
    requires '/' !in host && ':' !in host && 0x1_0000 <= port <= INT_MAX && !IsAbsolute(endpoint)
    ensures var address := host + ":" + Decimal(port);
            && Named(address, tls) == Server(host, port)
            && Split(Resolve(endpoint, address, tls)) == To(tls, host, port % 0x1_0000, AbsolutePath(endpoint))
            && port % 0x1_0000 != port
  {
    hide Split, Resolve, SplitAuthority, Named, IsAbsolute, Decimal, Numeral;
    var address := host + ":" + Decimal(port);
    assert '/' !in address;
    NumeralOfDecimal(port);
    NamedPort(host, Decimal(port), tls);
    PortCut(tls, host, Decimal(port), AbsolutePath(endpoint));
    SplitResolved(endpoint, address, tls);
  }
}
