/** Volume IDs: a filer address and a path as one URL of the scheme "filer", built and taken apart the
    way Go's net/url does it. A character of a string stands for the byte of the same number. */
module VolumeId {
  import opened Wrappers
  import opened Strings

  predicate IsLetter(c: char) {
    'a' <= c <= 'z' || 'A' <= c <= 'Z'
  }

  // ---- percent-encoding --------------------------------------------------------------------------

  datatype Part = Host | Zone | Path

  /** Which bytes are written as %XX (section 2.1 of RFC 3986). A host keeps the reserved characters that
      section 3.2.2 allows, and a few more, and so does the zone of an address in brackets; a path those of
      section 3.3. */
  predicate ShouldEscape(c: char, part: Part) {
    && !IsLetter(c) && !IsDigit(c) && c !in "-_.~"
    && match part
       case Path => c !in "$&+,/:;=@"
       case _ => c !in "!$&'()*+,;=:[]<>\""
  }

  function HexDigit(d: int): char
    requires 0 <= d < 16
  {
    if d < 10 then (d + '0' as int) as char else (d - 10 + 'A' as int) as char
  }

  function Unhex(c: char): (d: int)
    ensures -1 <= d < 16
  {
    if '0' <= c <= '9' then c as int - '0' as int
    else if 'a' <= c <= 'f' then c as int - 'a' as int + 10
    else if 'A' <= c <= 'F' then c as int - 'A' as int + 10
    else -1
  }

  function EscapeChar(c: char, part: Part): (e: string)
    requires c as int < 256
    ensures e != "" && (e[0] == c || e[0] == '%')
  {
    if ShouldEscape(c, part) then ['%', HexDigit(c as int / 16), HexDigit(c as int % 16)] else [c]
  }

  function Escape(s: string, part: Part): string
    requires IsBytes(s)
  {
    if s == "" then "" else EscapeChar(s[0], part) + Escape(s[1..], part)
  }

  /** In a host, %XX may stand for a byte outside ASCII or for the percent sign only; in a zone, for the
      percent sign, for a space, or for what need not be escaped. In both, a character that ought to have
      been escaped is refused. */
  function Unescape(s: string, part: Part): Option<string> {
    if s == "" then Some("")
    else if s[0] == '%' then
      if |s| < 3 || Unhex(s[1]) < 0 || Unhex(s[2]) < 0 then None
      else if part.Host? && Unhex(s[1]) < 8 && s[..3] != "%25" then None
      else if part.Zone? && !ZoneChar((Unhex(s[1]) * 16 + Unhex(s[2])) as char) then None
      else Prepend((Unhex(s[1]) * 16 + Unhex(s[2])) as char, Unescape(s[3..], part))
    else if !part.Path? && s[0] as int < 0x80 && ShouldEscape(s[0], Host) then None
    else Prepend(s[0], Unescape(s[1..], part))
  }

  predicate ZoneChar(c: char) {
    c == '%' || c == ' ' || !ShouldEscape(c, Zone)
  }

  function Prepend(c: char, rest: Option<string>): Option<string> {
    match rest
    case None => None
    case Some(s) => Some([c] + s)
  }

  // ---- encoding ----------------------------------------------------------------------------------

  const PREFIX := "filer" + "://"

  function EncodeVolumeID(filerAddress: string, volumePath: string): string
    requires IsBytes(filerAddress) && IsBytes(volumePath)
  {
    if filerAddress == "" then volumePath
    else
      var path := if volumePath == "*" then "*" else Escape(volumePath, Path);
      PREFIX + Escape(filerAddress, Host) + (if path != "" && path[0] != '/' then "/" + path else path)
  }

  // ---- decoding ----------------------------------------------------------------------------------

  predicate HasControl(s: string) {
    exists i :: 0 <= i < |s| && (s[i] as int < 0x20 || s[i] as int == 0x7F)
  }

  /** The text is a URL of the scheme "filer", in any case. */
  predicate IsFilerScheme(s: string) {
    |s| == 5 && LowerChar(s[0]) == 'f' && LowerChar(s[1]) == 'i' && LowerChar(s[2]) == 'l' && LowerChar(s[3]) == 'e' && LowerChar(s[4]) == 'r'
  }

  /** Where the port of a host begins. */
  datatype PortRule = AfterFirstColon | AfterLastColon

  /** What differs between versions of net/url: the port rule, which in some versions depends on the scheme
      as well; which texts in brackets are addresses (any at all in older versions, IPv6 addresses in newer
      ones); and how a host reads that has a bracket where none belongs. */
  datatype Rules = Rules(port: PortRule, literal: string -> bool, stray: string -> Option<string>)

  /** After that colon the host has only digits, if any. */
  predicate PortOk(rule: PortRule, host: string) {
    host == "" ||
    match rule
    case AfterFirstColon => if host[0] == ':' then AllDigits(host[1..]) else PortOk(rule, host[1..])
    case AfterLastColon => PortOk(rule, host[1..]) && (host[0] == ':' && ':' !in host[1..] ==> AllDigits(host[1..]))
  }

  /** Nothing, or a colon and digits. */
  predicate OptionalPort(s: string) {
    s == "" || (s[0] == ':' && AllDigits(s[1..]))
  }

  /** Where "%25" first occurs, or the length of the text. */
  function FindZone(s: string): (n: nat)
    ensures n <= |s|
  {
    if |s| < 3 then |s| else if s[..3] == "%25" then 0 else 1 + FindZone(s[1..])
  }

  /** The text between the brackets (RFC 6874 for the zone). */
  function UnescapeZoned(s: string): Option<string> {
    match (Unescape(s[..FindZone(s)], Host), Unescape(s[FindZone(s)..], Zone))
    case (Some(address), Some(zone)) => Some(address + zone)
    case _ => None
  }

  predicate IsLiteral(host: string) {
    host != "" && host[0] == '[' && '[' !in host[1..]
  }

  /** An address in brackets, with or without a port (section 3.2.2 of RFC 3986). The port has nothing in it
      that could be unescaped. */
  function ParseLiteral(host: string, literal: string -> bool): Option<string>
    requires IsLiteral(host)
  {
    var n := FindLast(host, ']');
    if n == |host| || !OptionalPort(host[n + 1..]) then None
    else match UnescapeZoned(host[1..n])
         case None => None
         case Some(text) => if literal(text) then Some("[" + text + "]" + host[n + 1..]) else None
  }

  function ParseHost(host: string, rules: Rules): Option<string> {
    if IsLiteral(host) then ParseLiteral(host, rules.literal)
    else if '[' in host then rules.stray(host)
    else if PortOk(rules.port, host) then Unescape(host, Host)
    else None
  }

  /** The part after the last '@' of an authority. */
  function AfterUser(authority: string): string {
    var i := Find(authority, '@');
    if i == |authority| then authority else AfterUser(authority[i + 1..])
  }

  predicate UserOk(user: string) {
    && (forall i :: 0 <= i < |user| ==> IsLetter(user[i]) || IsDigit(user[i]) || user[i] in "-._:~!$&'()*+,;=%@")
    && Unescape(user, Path).Some?
  }

  function ParseAuthority(authority: string, rules: Rules): Option<string> {
    var host := AfterUser(authority);
    if |host| < |authority| && !UserOk(authority[..|authority| - |host| - 1]) then None
    else ParseHost(host, rules)
  }

  /** What follows the scheme: host and path, or None for an error. */
  function ParseRest(rest: string, rules: Rules): Option<(string, string)> {
    var hierarchical := rest[..Find(rest, '?')];
    if hierarchical == "" || hierarchical[0] != '/' then Some(("", ""))  // opaque
    else if |hierarchical| >= 2 && hierarchical[1] == '/' then
      var authority := hierarchical[2..][..Find(hierarchical[2..], '/')];
      match (ParseAuthority(authority, rules), Unescape(hierarchical[2 + |authority|..], Path))
      case (Some(host), Some(path)) => Some((host, path))
      case _ => None
    else match Unescape(hierarchical, Path)
         case None => None
         case Some(path) => Some(("", path))
  }

  /** Anything that is not a URL of the scheme "filer" is a path. */
  function DecodeVolumeID(volumeID: string, rules: Rules): (string, string) {
    var url := volumeID[..Find(volumeID, '#')];
    var fragment := volumeID[if |url| < |volumeID| then |url| + 1 else |url|..];
    var scheme := url[..Find(url, ':')];
    if HasControl(url) || !IsFilerScheme(scheme) || |scheme| == |url| || Unescape(fragment, Path).None? then ("", volumeID)
    else
      match ParseRest(url[|scheme| + 1..], rules)
      case None => ("", volumeID)
      case Some(parts) => parts
  }

  // ---- the round trip ----------------------------------------------------------------------------

  /** The addresses a URL can carry. Without brackets: no ASCII character that would need escaping except
      '%', and only digits for a port. */
  predicate AddressOk(rules: Rules, f: string)
    requires IsBytes(f)
  {
    if IsLiteral(f) then LiteralOk(rules.literal, f)
    else if '[' in f then rules.stray(Escape(f, Host)) == Some(f)
    else AllFit(f, Host) && PortOk(rules.port, f)
  }

  /** In brackets: the same up to the first '%', a space instead of bytes outside ASCII from there on, and
      the text must be taken for an address. */
  predicate LiteralOk(literal: string -> bool, f: string)
    requires IsLiteral(f)
  {
    var n := FindLast(f, ']');
    n < |f| && OptionalPort(f[n + 1..]) && TextOk(f[1..n]) && literal(f[1..n])
  }

  predicate TextOk(text: string) {
    AllFit(text[..Find(text, '%')], Host) && AllFit(text[Find(text, '%')..], Zone)
  }

  /** The byte survives its escape in this part. */
  predicate Fits(c: char, part: Part) {
    match part
    case Host => HostChar(c)
    case Zone => ZoneChar(c)
    case Path => true
  }

  predicate AllFit(s: string, part: Part) {
    forall i :: 0 <= i < |s| ==> Fits(s[i], part)
  }

  predicate HostChar(c: char) {
    c as int >= 0x80 || c == '%' || !ShouldEscape(c, Host)
  }

  lemma UnhexHexDigit(d: int)
    requires 0 <= d < 16
    ensures Unhex(HexDigit(d)) == d
  {
  }

  lemma UnescapeOne(c: char, rest: string, part: Part)
    requires c as int < 256
    ensures Unescape(EscapeChar(c, part) + rest, part) ==
            if Fits(c, part) then Prepend(c, Unescape(rest, part)) else None
  {
    var e := EscapeChar(c, part);
    var s := e + rest;
    assert s[0] == e[0] && s[|e|..] == rest;
    if ShouldEscape(c, part) {
      UnhexHexDigit(c as int / 16);
      UnhexHexDigit(c as int % 16);
      assert s[1] == e[1] && s[2] == e[2] && s[..3] == e;
    }
  }

  /** A path comes back whatever its bytes; a host or a zone exactly if every byte survives. */
  lemma {:induction false} UnescapeEscape(s: string, part: Part)
    requires IsBytes(s)
    ensures Unescape(Escape(s, part), part) == if AllFit(s, part) then Some(s) else None
  {
    if s != "" {
      UnescapeEscape(s[1..], part);
      UnescapeOne(s[0], Escape(s[1..], part), part);
      assert s == [s[0]] + s[1..];
      assert AllFit(s, part) <==> Fits(s[0], part) && AllFit(s[1..], part);
    }
  }

  /** What can occur in an escaped part. */
  predicate Safe(c: char, part: Part) {
    c == '%' || !ShouldEscape(c, part)
  }

  predicate AllSafe(s: string, part: Part) {
    forall i :: 0 <= i < |s| ==> Safe(s[i], part)
  }

  lemma EscapeCharIsSafe(c: char, part: Part)
    requires c as int < 256
    ensures AllSafe(EscapeChar(c, part), part)
  {
  }

  lemma {:induction false} EscapeIsSafe(s: string, part: Part)
    requires IsBytes(s)
    ensures AllSafe(Escape(s, part), part)
  {
    if s != "" {
      EscapeIsSafe(s[1..], part);
      EscapeCharIsSafe(s[0], part);
    }
  }

  lemma {:induction false} EscapeKeepsNo(s: string, c: char)
    requires IsBytes(s) && c in "[]" && c !in s
    ensures c !in Escape(s, Host)
  {
    if s != "" {
      EscapeKeepsNo(s[1..], c);
      assert c !in EscapeChar(s[0], Host);
    }
  }

  lemma DigitsAppend(a: string, b: string)
    ensures AllDigits(a + b) <==> AllDigits(a) && AllDigits(b)
  {
    if AllDigits(a + b) {
      assert forall i :: 0 <= i < |a| ==> a[i] == (a + b)[i];
      assert forall i :: 0 <= i < |b| ==> b[i] == (a + b)[|a| + i];
    }
  }

  lemma {:induction false} DigitsEscape(s: string)
    requires IsBytes(s)
    ensures AllDigits(Escape(s, Host)) <==> AllDigits(s)
  {
    if s != "" {
      DigitsEscape(s[1..]);
      DigitsAppend(EscapeChar(s[0], Host), Escape(s[1..], Host));
      DigitsAppend([s[0]], s[1..]);
      assert s == [s[0]] + s[1..];
      assert AllDigits([s[0]]) <==> IsDigit(s[0]);
      assert AllDigits(EscapeChar(s[0], Host)) <==> IsDigit(EscapeChar(s[0], Host)[0]) && IsDigit(s[0]);
    }
  }

  lemma InAppend(a: string, b: string, c: char)
    ensures c in a + b <==> c in a || c in b
  {
  }

  lemma {:induction false} PortAfter(rule: PortRule, e: string, rest: string)
    requires ':' !in e
    ensures PortOk(rule, e + rest) <==> PortOk(rule, rest)
  {
    if e == "" {
      assert e + rest == rest;
    } else {
      PortAfter(rule, e[1..], rest);
      assert (e + rest)[1..] == e[1..] + rest;
    }
  }

  lemma PortAtColon(rule: PortRule, rest: string)
    ensures PortOk(rule, ":" + rest) <==>
            match rule
            case AfterFirstColon => AllDigits(rest)
            case AfterLastColon => PortOk(rule, rest) && (':' !in rest ==> AllDigits(rest))
  {
    assert (":" + rest)[1..] == rest;
  }

  lemma {:induction false} ColonEscape(s: string)
    requires IsBytes(s)
    ensures ':' in Escape(s, Host) <==> ':' in s
  {
    if s != "" {
      ColonEscape(s[1..]);
      InAppend(EscapeChar(s[0], Host), Escape(s[1..], Host), ':');
      InAppend([s[0]], s[1..], ':');
      assert s == [s[0]] + s[1..];
    }
  }

  lemma {:induction false} PortEscape(rule: PortRule, s: string)
    requires IsBytes(s)
    ensures PortOk(rule, Escape(s, Host)) <==> PortOk(rule, s)
  {
    if s != "" {
      PortEscape(rule, s[1..]);
      if s[0] == ':' {
        DigitsEscape(s[1..]);
        ColonEscape(s[1..]);
        PortAtColon(rule, s[1..]);
        PortAtColon(rule, Escape(s[1..], Host));
        assert s == ":" + s[1..] && Escape(s, Host) == ":" + Escape(s[1..], Host);
      } else {
        PortAfter(rule, EscapeChar(s[0], Host), Escape(s[1..], Host));
      }
    }
  }

  lemma SafeHasNoDelimiter(host: string, path: string)
    requires AllSafe(host, Host) && AllSafe(path, Path)
    ensures '?' !in host && '?' !in path && '/' !in host && '@' !in host
  {
  }

  /** Where the authority ends. */
  lemma CutAuthority(host: string, path: string)
    requires '/' !in host && path != "" && path[0] == '/'
    ensures var rest := "//" + host + path;
            Find(rest[2..], '/') == |host| && rest[2..][..|host|] == host && rest[2 + |host|..] == path
  {
    var rest := "//" + host + path;
    assert rest[2..] == host + ['/'] + path[1..];
    FindFirst(host, '/', path[1..]);
  }

  lemma ParseHierarchical(host: string, path: string, rules: Rules)
    requires AllSafe(host, Host) && AllSafe(path, Path) && path != "" && path[0] == '/'
    ensures ParseRest("//" + host + path, rules) ==
            match (ParseHost(host, rules), Unescape(path, Path))
            case (Some(h), Some(p)) => Some((h, p))
            case _ => None
  {
    var rest := "//" + host + path;
    SafeHasNoDelimiter(host, path);
    FindNone(rest, '?');
    assert rest[..|rest|] == rest;
    CutAuthority(host, path);
    FindNone(host, '@');
  }

  lemma NoControl(host: string, path: string)
    requires AllSafe(host, Host) && AllSafe(path, Path)
    ensures !HasControl(PREFIX + host + path) && '#' !in PREFIX + host + path
  {
    var id := PREFIX + host + path;
    assert '#' !in host && '#' !in path;
    forall i | 0 <= i < |id| ensures !(id[i] as int < 0x20 || id[i] as int == 0x7F) {
      SafeIsNoControl(id, i, host, path);
    }
  }

  lemma CutScheme(id: string, rest: string)
    requires id == "filer" + [':'] + rest
    ensures Find(id, ':') == 5 && id[..5] == "filer" && id[6..] == rest
  {
    FindFirst("filer", ':', rest);
  }

  lemma DecodePlain(id: string, rest: string, rules: Rules)
    requires id == "filer" + [':'] + rest && !HasControl(id) && '#' !in id
    ensures DecodeVolumeID(id, rules) ==
            match ParseRest(rest, rules)
            case None => ("", id)
            case Some(parts) => parts
  {
    FindNone(id, '#');
    CutScheme(id, rest);
    assert id[..|id|] == id && id[|id|..] == "";
  }

  lemma DecodeSafe(host: string, path: string, rules: Rules)
    requires AllSafe(host, Host) && AllSafe(path, Path) && path != "" && path[0] == '/'
    ensures DecodeVolumeID(PREFIX + host + path, rules) ==
            match ParseRest("//" + host + path, rules)
            case None => ("", PREFIX + host + path)
            case Some(parts) => parts
  {
    NoControl(host, path);
    assert PREFIX + host + path == "filer" + [':'] + ("//" + host + path);
    DecodePlain(PREFIX + host + path, "//" + host + path, rules);
  }

  lemma SafeIsNoControl(id: string, i: nat, host: string, path: string)
    requires id == PREFIX + host + path && i < |id| && AllSafe(host, Host) && AllSafe(path, Path)
    ensures id[i] as int >= 0x20 && id[i] as int != 0x7F
  {
    if i < |PREFIX| {
      assert id[i] == PREFIX[i];
    } else if i < |PREFIX| + |host| {
      assert id[i] == host[i - |PREFIX|] && Safe(id[i], Host);
    } else {
      assert id[i] == path[i - |PREFIX| - |host|] && Safe(id[i], Path);
    }
  }

  lemma DecodeEscaped(host: string, path: string, rules: Rules)
    requires AllSafe(host, Host) && AllSafe(path, Path) && path != "" && path[0] == '/'
    ensures DecodeVolumeID(PREFIX + host + path, rules) ==
            match (ParseHost(host, rules), Unescape(path, Path))
            case (Some(h), Some(p)) => (h, p)
            case _ => ("", PREFIX + host + path)
  {
    ParseHierarchical(host, path, rules);
    DecodeSafe(host, path, rules);
  }

  // An address in brackets is escaped part by part.

  lemma {:induction false} EscapeAppend(a: string, b: string)
    requires IsBytes(a) && IsBytes(b)
    ensures IsBytes(a + b) && Escape(a + b, Host) == Escape(a, Host) + Escape(b, Host)
  {
    if a == "" {
      assert a + b == b;
    } else {
      EscapeAppend(a[1..], b);
      assert (a + b)[1..] == a[1..] + b;
    }
  }

  lemma {:induction false} EscapeZone(s: string)
    requires IsBytes(s)
    ensures Escape(s, Zone) == Escape(s, Host)
  {
    if s != "" {
      EscapeZone(s[1..]);
    }
  }

  lemma FindZoneSkips(c: char, t: string)
    requires |t| < 2 || [c, t[0], t[1]] != "%25"
    ensures FindZone([c] + t) == 1 + FindZone(t)
  {
    assert ([c] + t)[1..] == t;
    assert |t| >= 2 ==> ([c] + t)[..3] == [c, t[0], t[1]];
  }

  lemma OnlyPercentIs25(c: char)
    requires c as int < 256 && ShouldEscape(c, Host) && c != '%'
    ensures EscapeChar(c, Host) != "%25" && EscapeChar(c, Host)[1] != '%' && EscapeChar(c, Host)[2] != '%'
  {
    UnhexHexDigit(c as int / 16);
    UnhexHexDigit(c as int % 16);
  }

  /** An escaped byte other than '%' does not begin a zone, nor does one begin inside it. */
  lemma FindZoneAfter(c: char, t: string)
    requires c as int < 256 && c != '%'
    ensures FindZone(EscapeChar(c, Host) + t) == |EscapeChar(c, Host)| + FindZone(t)
  {
    var e := EscapeChar(c, Host);
    if |e| == 1 {
      FindZoneSkips(c, t);
    } else {
      OnlyPercentIs25(c);
      var t2 := [e[2]] + t;
      var t1 := [e[1]] + t2;
      FindZoneSkips(e[2], t);
      FindZoneSkips(e[1], t2);
      FindZoneSkips(e[0], t1);
      assert e + t == [e[0]] + t1;
    }
  }

  lemma {:induction false} FindZoneEscape(a: string, t: string)
    requires IsBytes(a) && '%' !in a && (t == "" || "%25" <= t)
    ensures FindZone(Escape(a, Host) + t) == |Escape(a, Host)|
  {
    if a == "" {
      assert Escape(a, Host) + t == t;
    } else {
      FindZoneEscape(a[1..], t);
      FindZoneAfter(a[0], Escape(a[1..], Host) + t);
      Associative(EscapeChar(a[0], Host), Escape(a[1..], Host), t);
    }
  }

  lemma PercentEscape(zone: string)
    requires IsBytes(zone) && zone != "" && zone[0] == '%'
    ensures "%25" <= Escape(zone, Host)
  {
    assert Escape(zone, Host) == EscapeChar('%', Host) + Escape(zone[1..], Host);
    var e := EscapeChar('%', Host);
    assert e[0] == '%' && e[1] == '2' && e[2] == '5';
  }

  lemma FindZoneOfText(address: string, zone: string)
    requires IsBytes(address) && '%' !in address && IsBytes(zone) && (zone == "" || zone[0] == '%')
    ensures FindZone(Escape(address, Host) + Escape(zone, Host)) == |Escape(address, Host)|
  {
    if zone != "" {
      PercentEscape(zone);
    }
    FindZoneEscape(address, Escape(zone, Host));
  }

  lemma UnescapeParts(address: string, zone: string)
    requires IsBytes(address) && IsBytes(zone)
    ensures Unescape(Escape(address, Host), Host) == if AllFit(address, Host) then Some(address) else None
    ensures Unescape(Escape(zone, Host), Zone) == if AllFit(zone, Zone) then Some(zone) else None
  {
    EscapeZone(zone);
    UnescapeEscape(address, Host);
    UnescapeEscape(zone, Zone);
  }

  lemma UnescapeZonedAt(e: string, t: string)
    requires FindZone(e + t) == |e|
    ensures UnescapeZoned(e + t) ==
            match (Unescape(e, Host), Unescape(t, Zone))
            case (Some(address), Some(zone)) => Some(address + zone)
            case _ => None
  {
    assert (e + t)[..|e|] == e && (e + t)[|e|..] == t;
  }

  /** The text in brackets comes back exactly if every byte survives, up to the first '%' as in a host and
      from there on as in a zone. */
  lemma UnescapeText(text: string)
    requires IsBytes(text)
    ensures UnescapeZoned(Escape(text, Host)) == if TextOk(text) then Some(text) else None
  {
    var address, zone := text[..Find(text, '%')], text[Find(text, '%')..];
    assert text == address + zone;
    EscapeAppend(address, zone);
    FindZoneOfText(address, zone);
    UnescapeZonedAt(Escape(address, Host), Escape(zone, Host));
    UnescapeParts(address, zone);
  }

  lemma EscapePort(s: string)
    requires IsBytes(s)
    ensures OptionalPort(Escape(s, Host)) <==> OptionalPort(s)
    ensures OptionalPort(s) ==> Escape(s, Host) == s
  {
    if s != "" {
      DigitsEscape(s[1..]);
      if AllDigits(s[1..]) {
        DigitsNeedNoEscape(s[1..]);
      }
      assert s == [s[0]] + s[1..];
    }
  }

  lemma {:induction false} DigitsNeedNoEscape(s: string)
    requires AllDigits(s)
    ensures IsBytes(s) && Escape(s, Host) == s
  {
    if s != "" {
      DigitsNeedNoEscape(s[1..]);
      assert s == [s[0]] + s[1..];
    }
  }

  lemma EscapeBracket(c: char, t: string)
    requires IsBytes(t) && c in "[]"
    ensures IsBytes([c] + t) && Escape([c] + t, Host) == [c] + Escape(t, Host)
  {
    assert ([c] + t)[1..] == t;
  }

  lemma Bracketed(text: string, port: string)
    ensures "[" + text + "]" + port == "[" + (text + ("]" + port))
  {
  }

  /** An address in brackets, taken apart and escaped. */
  lemma EscapeLiteral(text: string, port: string)
    requires IsBytes(text) && IsBytes(port)
    ensures var f := "[" + text + "]" + port;
            IsBytes(f) && Escape(f, Host) == "[" + Escape(text, Host) + "]" + Escape(port, Host)
  {
    Bracketed(text, port);
    EscapeBracket(']', port);
    EscapeAppend(text, "]" + port);
    EscapeBracket('[', text + ("]" + port));
    Bracketed(Escape(text, Host), Escape(port, Host));
  }

  lemma CutLiteral(text: string, port: string)
    requires ']' !in port
    ensures var f := "[" + text + "]" + port;
            FindLast(f, ']') == 1 + |text| && f[1..1 + |text|] == text && f[2 + |text|..] == port
  {
    var f := "[" + text + "]" + port;
    assert f == ("[" + text) + [']'] + port;
    FindLastOne("[" + text, ']', port);
  }

  lemma {:induction false} BracketEscape(f: string)
    requires IsBytes(f)
    ensures '[' in Escape(f, Host) <==> '[' in f
    ensures IsLiteral(Escape(f, Host)) <==> IsLiteral(f)
  {
    if f != "" {
      BracketEscape(f[1..]);
      InAppend(EscapeChar(f[0], Host), Escape(f[1..], Host), '[');
      InAppend([f[0]], f[1..], '[');
      assert f == [f[0]] + f[1..];
      if f[0] == '[' {
        assert Escape(f, Host)[1..] == Escape(f[1..], Host);
      }
    }
  }

  lemma ParseLiteralAt(text: string, port: string, literal: string -> bool)
    requires ']' !in port && IsLiteral("[" + text + "]" + port)
    ensures ParseLiteral("[" + text + "]" + port, literal) ==
            if !OptionalPort(port) then None
            else match UnescapeZoned(text)
                 case None => None
                 case Some(t) => if literal(t) then Some("[" + t + "]" + port) else None
  {
    CutLiteral(text, port);
  }

  lemma ParseEscapedLiteral(f: string, literal: string -> bool)
    requires IsBytes(f) && IsLiteral(f)
    ensures IsLiteral(Escape(f, Host))
    ensures ParseLiteral(Escape(f, Host), literal) == if LiteralOk(literal, f) then Some(f) else None
  {
    BracketEscape(f);
    var n := FindLast(f, ']');
    if n == |f| {
      EscapeKeepsNo(f, ']');
    } else {
      var text, port := f[1..n], f[n + 1..];
      assert f == "[" + text + "]" + port;
      EscapeKeepsNo(port, ']');
      EscapeLiteral(text, port);
      ParseLiteralAt(Escape(text, Host), Escape(port, Host), literal);
      UnescapeText(text);
      EscapePort(port);
    }
  }

  lemma ParseEscapedPlain(rules: Rules, f: string)
    requires IsBytes(f) && '[' !in f
    ensures ParseHost(Escape(f, Host), rules) == if AddressOk(rules, f) then Some(f) else None
  {
    EscapeKeepsNo(f, '[');
    PortEscape(rules.port, f);
    UnescapeEscape(f, Host);
  }

  lemma EscapedAddress(rules: Rules, f: string)
    requires IsBytes(f)
    ensures AllSafe(Escape(f, Host), Host)
    ensures ParseHost(Escape(f, Host), rules) == Some(f) <==> AddressOk(rules, f)
    ensures '[' !in f && !AddressOk(rules, f) ==> ParseHost(Escape(f, Host), rules).None?
  {
    EscapeIsSafe(f, Host);
    BracketEscape(f);
    if IsLiteral(f) {
      ParseEscapedLiteral(f, rules.literal);
    } else if '[' !in f {
      ParseEscapedPlain(rules, f);
    }
  }

  lemma EscapedPath(p: string)
    requires IsBytes(p) && p != "" && p[0] == '/'
    ensures var e := Escape(p, Path); AllSafe(e, Path) && e != "" && e[0] == '/' && Unescape(e, Path) == Some(p)
  {
    EscapeIsSafe(p, Path);
    UnescapeEscape(p, Path);
  }

  /** An absolute path comes back with its filer address exactly if a URL can carry the address. */
  lemma DecodeEncodeIff(filerAddress: string, volumePath: string, rules: Rules)
    requires IsBytes(filerAddress) && IsBytes(volumePath)
    requires filerAddress != "" && volumePath != "" && volumePath[0] == '/'
    ensures DecodeVolumeID(EncodeVolumeID(filerAddress, volumePath), rules) == (filerAddress, volumePath) <==> AddressOk(rules, filerAddress)
  {
    EscapedAddress(rules, filerAddress);
    EscapedPath(volumePath);
    DecodeEscaped(Escape(filerAddress, Host), Escape(volumePath, Path), rules);
  }

  predicate IsHostname(host: string) {
    host != "" && forall i :: 0 <= i < |host| ==> IsLetter(host[i]) || IsDigit(host[i]) || host[i] in "-._~!$&'()*+,;="
  }

  lemma {:induction false} NoColonIsOk(rule: PortRule, host: string)
    requires ':' !in host
    ensures PortOk(rule, host)
  {
    if host != "" {
      NoColonIsOk(rule, host[1..]);
    }
  }

  /** A host with a single colon in it. */
  lemma HostnameHasOkPort(rule: PortRule, host: string, port: string)
    requires ':' !in host && ':' !in port
    ensures PortOk(rule, host) && (PortOk(rule, host + ":" + port) <==> AllDigits(port))
  {
    NoColonIsOk(rule, host);
    NoColonIsOk(rule, port);
    PortAtColon(rule, port);
    PortAfter(rule, host, ":" + port);
    Associative(host, ":", port);
  }

  /** Host characters, but no bracket. */
  predicate Ordinary(s: string) {
    forall i :: 0 <= i < |s| ==> s[i] as int < 256 && s[i] != '[' && HostChar(s[i])
  }

  lemma HostnameIsOrdinary(host: string)
    requires IsHostname(host)
    ensures Ordinary(host) && host != "" && ':' !in host
  {
    forall i | 0 <= i < |host| ensures host[i] as int < 256 && host[i] != '[' && host[i] != ':' && HostChar(host[i]) {
    }
  }

  lemma DigitsAreOrdinary(port: string)
    requires AllDigits(port)
    ensures Ordinary(port) && ':' !in port
  {
  }

  lemma OrdinaryConcat(a: string, b: string)
    requires Ordinary(a) && Ordinary(b)
    ensures Ordinary(a + b)
  {
  }

  lemma OrdinaryAppend(a: string, c: char, b: string)
    requires Ordinary(a) && Ordinary(b) && c in ":.,"
    ensures Ordinary(a + [c] + b)
  {
    assert Ordinary([c]);
    OrdinaryConcat(a, [c]);
    OrdinaryConcat(a + [c], b);
  }

  predicate Carried(rule: PortRule, f: string) {
    Ordinary(f) && f != "" && PortOk(rule, f)
  }

  lemma HostnameIsCarried(rule: PortRule, host: string, port: string)
    requires IsHostname(host) && AllDigits(port)
    ensures Carried(rule, host) && Carried(rule, host + ":" + port)
  {
    HostnameIsOrdinary(host);
    DigitsAreOrdinary(port);
    HostnameHasOkPort(rule, host, port);
    OrdinaryAppend(host, ':', port);
  }

  lemma CarriedRoundTrip(f: string, volumePath: string, rules: Rules)
    requires Carried(rules.port, f) && IsBytes(volumePath) && volumePath != "" && volumePath[0] == '/'
    ensures IsBytes(f) && DecodeVolumeID(EncodeVolumeID(f, volumePath), rules) == (f, volumePath)
  {
    DecodeEncodeIff(f, volumePath, rules);
  }

  /** Every host, and every host with a port, is such an address (section 3.2 of RFC 3986). */
  lemma HostAndPortRoundTrip(host: string, port: string, volumePath: string, rules: Rules)
    requires IsHostname(host) && AllDigits(port) && IsBytes(volumePath) && volumePath != "" && volumePath[0] == '/'
    ensures IsBytes(host) && DecodeVolumeID(EncodeVolumeID(host, volumePath), rules) == (host, volumePath)
    ensures var f := host + ":" + port; IsBytes(f) && DecodeVolumeID(EncodeVolumeID(f, volumePath), rules) == (f, volumePath)
  {
    HostnameIsCarried(rules.port, host, port);
    CarriedRoundTrip(host, volumePath, rules);
    CarriedRoundTrip(host + ":" + port, volumePath, rules);
  }

  /** Without a filer address the ID is the path. */
  lemma PathRoundTrip(volumePath: string, rules: Rules)
    requires IsBytes(volumePath) && volumePath != "" && volumePath[0] == '/'
    ensures DecodeVolumeID(EncodeVolumeID("", volumePath), rules) == ("", volumePath)
  {
    var url := volumePath[..Find(volumePath, '#')];
    assert url != "" && url[0] == '/';
  }

  /** An ordinary address with a bad port: the ID as a whole is taken for a path. */
  lemma BadPortIsLost(f: string, volumePath: string, rules: Rules)
    requires Ordinary(f) && f != "" && !PortOk(rules.port, f) && IsBytes(volumePath) && volumePath != "" && volumePath[0] == '/'
    ensures IsBytes(f) && DecodeVolumeID(EncodeVolumeID(f, volumePath), rules) == ("", EncodeVolumeID(f, volumePath))
  {
    EscapedAddress(rules, f);
    EscapedPath(volumePath);
    DecodeEscaped(Escape(f, Host), Escape(volumePath, Path), rules);
  }

  /** SeaweedFS also writes an address with its gRPC port, as host:port.grpcPort. Such an address is lost,
      whichever colon counts. */
  lemma GrpcPortIsLost(host: string, port: string, grpcPort: string, volumePath: string, rules: Rules)
    requires IsHostname(host) && AllDigits(port) && AllDigits(grpcPort) && IsBytes(volumePath) && volumePath != "" && volumePath[0] == '/'
    ensures var f := host + ":" + (port + "." + grpcPort);
            IsBytes(f) && DecodeVolumeID(EncodeVolumeID(f, volumePath), rules) == ("", EncodeVolumeID(f, volumePath))
  {
    var ports := port + "." + grpcPort;
    HostnameIsOrdinary(host);
    DigitsAreOrdinary(port);
    DigitsAreOrdinary(grpcPort);
    OrdinaryAppend(port, '.', grpcPort);
    OrdinaryAppend(host, ':', ports);
    assert !IsDigit(ports[|port|]);
    HostnameHasOkPort(rules.port, host, ports);
    BadPortIsLost(host + ":" + ports, volumePath, rules);
  }

  lemma OrdinaryList(host: string, port: string, host2: string, port2: string)
    requires IsHostname(host) && IsHostname(host2) && AllDigits(port) && AllDigits(port2)
    ensures Ordinary(host + ":" + (port + "," + (host2 + ":" + port2)))
  {
    HostnameIsOrdinary(host);
    HostnameIsOrdinary(host2);
    DigitsAreOrdinary(port);
    DigitsAreOrdinary(port2);
    OrdinaryAppend(host2, ':', port2);
    OrdinaryAppend(port, ',', host2 + ":" + port2);
    OrdinaryAppend(host, ':', port + "," + (host2 + ":" + port2));
  }

  /** Whether an ordinary address comes back is a question of its port alone. */
  lemma OrdinaryRoundTripIff(f: string, volumePath: string, rules: Rules)
    requires Ordinary(f) && f != "" && IsBytes(volumePath) && volumePath != "" && volumePath[0] == '/'
    ensures IsBytes(f) && (DecodeVolumeID(EncodeVolumeID(f, volumePath), rules) == (f, volumePath) <==> PortOk(rules.port, f))
  {
    DecodeEncodeIff(f, volumePath, rules);
  }

  /** A list of two filers with ports, as the `filer` parameter may hold: there it depends on the colon. */
  lemma ListOfFilersIff(host: string, port: string, host2: string, port2: string, volumePath: string, rules: Rules)
    requires IsHostname(host) && IsHostname(host2) && AllDigits(port) && AllDigits(port2)
    requires IsBytes(volumePath) && volumePath != "" && volumePath[0] == '/'
    ensures var f := host + ":" + (port + "," + (host2 + ":" + port2));
            IsBytes(f) && (DecodeVolumeID(EncodeVolumeID(f, volumePath), rules) == (f, volumePath) <==> rules.port.AfterLastColon?)
  {
    OrdinaryList(host, port, host2, port2);
    ListPort(rules.port, host, port, host2, port2);
    OrdinaryRoundTripIff(host + ":" + (port + "," + (host2 + ":" + port2)), volumePath, rules);
  }

  lemma ListPort(rule: PortRule, host: string, port: string, host2: string, port2: string)
    requires ':' !in host && ':' !in host2 && AllDigits(port) && AllDigits(port2)
    ensures PortOk(rule, host + ":" + (port + "," + (host2 + ":" + port2))) <==> rule.AfterLastColon?
  {
    var second := host2 + ":" + port2;
    var front := port + ",";
    var tail := front + second;
    Associative(host, ":", tail);
    PortAfter(rule, host, ":" + tail);
    assert host + ":" + tail == host + (":" + tail);
    PortAtColon(rule, tail);
    HostnameHasOkPort(rule, host2, port2);
    PortAfter(rule, front, second);
    InAppend(front, second, ':');
    assert second[|host2|] == ':';
    assert tail[|port|] == ',';
  }

  // ---- addresses in brackets ---------------------------------------------------------------------

  /** What IPv6 addresses consist of, with or without a zone. */
  predicate IsAddressText(text: string) {
    forall i :: 0 <= i < |text| ==> IsLetter(text[i]) || IsDigit(text[i]) || text[i] in ":.%-_~"
  }

  lemma AddressTextIsOk(text: string)
    requires IsAddressText(text)
    ensures IsBytes(text) && '[' !in text && ']' !in text && TextOk(text)
  {
    forall i | 0 <= i < |text| ensures text[i] as int < 256 && text[i] != '[' && text[i] != ']' && HostChar(text[i]) && ZoneChar(text[i]) {
    }
  }

  lemma LiteralOkAt(text: string, port: string, literal: string -> bool)
    requires ']' !in port && IsLiteral("[" + text + "]" + port) && OptionalPort(port) && TextOk(text)
    ensures LiteralOk(literal, "[" + text + "]" + port) <==> literal(text)
  {
    CutLiteral(text, port);
  }

  lemma InBrackets(text: string, port: string)
    requires IsBytes(text) && '[' !in text && OptionalPort(port)
    ensures IsBytes("[" + text + "]" + port) && ']' !in port && IsLiteral("[" + text + "]" + port)
  {
    assert ("[" + text + "]" + port)[1..] == text + "]" + port;
    assert port != "" ==> port == [port[0]] + port[1..];
  }

  /** An address in brackets, with or without a port, comes back exactly if net/url takes the text between
      the brackets for an address. */
  lemma LiteralIff(text: string, port: string, volumePath: string, rules: Rules)
    requires IsAddressText(text) && OptionalPort(port) && IsBytes(volumePath) && volumePath != "" && volumePath[0] == '/'
    ensures var f := "[" + text + "]" + port;
            IsBytes(f) && (DecodeVolumeID(EncodeVolumeID(f, volumePath), rules) == (f, volumePath) <==> rules.literal(text))
  {
    AddressTextIsOk(text);
    InBrackets(text, port);
    LiteralOkAt(text, port, rules.literal);
    DecodeEncodeIff("[" + text + "]" + port, volumePath, rules);
  }

  // ---- which filer keeps the parameters of a volume ----------------------------------------------

  datatype Filers = Own(addresses: string) | OfTheDriver

  function VacFilersForVolume(volumeID: string, rules: Rules): Filers {
    var filerAddress := DecodeVolumeID(volumeID, rules).0;
    if filerAddress != "" then Own(filerAddress) else OfTheDriver
  }

  /** The controller writes and the node reads at the filer the volume was created on. */
  lemma ParametersStayWithTheVolume(filerAddress: string, volumePath: string, rules: Rules)
    requires IsBytes(filerAddress) && IsBytes(volumePath) && volumePath != "" && volumePath[0] == '/'
    requires AddressOk(rules, filerAddress)
    ensures VacFilersForVolume(EncodeVolumeID(filerAddress, volumePath), rules) ==
            if filerAddress == "" then OfTheDriver else Own(filerAddress)
  {
    if filerAddress == "" {
      PathRoundTrip(volumePath, rules);
    } else {
      DecodeEncodeIff(filerAddress, volumePath, rules);
    }
  }
}
