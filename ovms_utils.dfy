/** Helpers for deploying models to the OpenVINO Model Server (OVMS)
    (geti_sdk/deployment/utils.py): the model name under which a model is
    served, the address of a served model, and the test that tells a server
    address apart from a local device name such as "CPU". */
module OvmsUtils {
  import opened Wrappers
  import opened Text

  /** The parts of a project and of an optimized model that the naming reads. */
  datatype Project = Project(name: string)

  /** `version` holds the text `f"{model.version}"` renders, or `None`. */
  datatype OptimizedModel = OptimizedModel(name: string, version: Option<string>)

  // ---------------------------------------------------------------------------
  // Model name (utils.py:31-50)
  // ---------------------------------------------------------------------------

  /** A name OVMS accepts as a directory name: no space, no hyphen, no upper case. */
  predicate IsOvmsSafe(s: string) {
    forall i :: 0 <= i < |s| ==> s[i] != ' ' && s[i] != '-' && !IsAsciiUpper(s[i])
  }

  /** What the three rewriting steps do to one character. */
  function NormalizeChar(c: char): char {
    if c == ' ' || c == '-' then '_' else LowerChar(c)
  }

  /** Spaces and hyphens become underscores, then the text is lower-cased. */
  function NormalizeModelName(s: string): (r: string)
    ensures |r| == |s|
    ensures IsOvmsSafe(r)
  {
    Lower(ReplaceChar(ReplaceChar(s, ' ', '_'), '-', '_'))
  }

  /** `generate_ovms_model_name`. `sanitize` stands for `pathvalidate.sanitize_filepath`,
      a foreign function about which nothing is assumed. */
  function GenerateOvmsModelName(sanitize: string -> string, project: Project,
                                 model: OptimizedModel, omitVersion: bool := true): (r: string)
    // the name proper is the sanitized text, rewritten character by character
    ensures var sanitized := sanitize(project.name + "_" + model.name);
            |sanitized| <= |r| &&
            forall i :: 0 <= i < |sanitized| ==> r[i] == NormalizeChar(sanitized[i])
    // it contains no space, no hyphen and no upper-case letter
    ensures IsOvmsSafe(r[..|sanitize(project.name + "_" + model.name)|])
    // a version suffix is added exactly when there is a version and it is not omitted
    ensures (model.version.Some? && !omitVersion) <==> |r| > |sanitize(project.name + "_" + model.name)|
    ensures model.version.Some? && !omitVersion ==>
              r[|sanitize(project.name + "_" + model.name)|..] == ":" + model.version.value
  {
    var name := NormalizeModelName(sanitize(project.name + "_" + model.name));
    if model.version.Some? && !omitVersion then name + ":" + model.version.value else name
  }

  /** The three rewriting steps amount to one pass of `NormalizeChar`. */
  lemma NormalizeModelNamePointwise(s: string, i: int)
    requires 0 <= i < |s|
    ensures NormalizeModelName(s)[i] == NormalizeChar(s[i])
  {
  }

  /** Normalizing a normalized name changes nothing. */
  lemma NormalizeModelNameIdempotent(s: string)
    ensures NormalizeModelName(NormalizeModelName(s)) == NormalizeModelName(s)
  {
    var n := NormalizeModelName(s);
    forall i | 0 <= i < |n|
      ensures NormalizeModelName(n)[i] == n[i]
    {
      NormalizeModelNamePointwise(n, i);
    }
  }

  /** By default (`omit_version` is True) no version suffix is ever added. */
  lemma DefaultOmitsVersion(sanitize: string -> string, project: Project, model: OptimizedModel)
    ensures GenerateOvmsModelName(sanitize, project, model)
         == NormalizeModelName(sanitize(project.name + "_" + model.name))
    ensures IsOvmsSafe(GenerateOvmsModelName(sanitize, project, model))
  {
  }

  // ---------------------------------------------------------------------------
  // Model address (utils.py:53-74)
  // ---------------------------------------------------------------------------

  /** Remove a leading "https://", and after that a leading "http://". */
  function StripScheme(s: string): (r: string)
    ensures |r| <= |s| && s[|s| - |r|..] == r
  {
    var s1 := if StartsWith(s, "https://") then s[8..] else s;
    if StartsWith(s1, "http://") then s1[7..] else s1
  }

  /** `generate_ovms_model_address`: the scheme is stripped from the whole
      `<address>/models/<name>` text, so at most 15 characters go and the
      model path always survives. */
  function GenerateOvmsModelAddress(ovmsAddress: string, modelName: string): (r: string)
    ensures EndsWith(ovmsAddress + "/models/" + modelName, r)
    ensures |r| + 15 >= |ovmsAddress| + 8 + |modelName|
    ensures EndsWith(r, "models/" + modelName)
  {
    var full := ovmsAddress + "/models/" + modelName;
    var r := StripScheme(full);
    assert full[|full| - |r|..] == r;
    StripFromAddressKeepsPath(ovmsAddress, modelName);
    r
  }

  /** A prefix without an 'm' cannot cover an 'm' of the text it starts. */
  lemma PrefixStopsBeforeM(s: string, prefix: string, m: int)
    requires forall i :: 0 <= i < |prefix| ==> prefix[i] != 'm'
    requires 0 <= m < |s| && s[m] == 'm'
    ensures StartsWith(s, prefix) ==> |prefix| <= m
  {
  }

  /** Stripping cannot reach past the 'm' that starts "models/". */
  lemma StripFromAddressKeepsPath(ovmsAddress: string, modelName: string)
    ensures var full := ovmsAddress + "/models/" + modelName;
            var r := StripScheme(full);
            |r| >= |"models/" + modelName| && EndsWith(r, "models/" + modelName)
  {
    var full := ovmsAddress + "/models/" + modelName;
    var tail := "models/" + modelName;
    var m := |ovmsAddress| + 1;
    assert full == ovmsAddress + "/" + tail;
    assert full[m..] == tail;
    PrefixStopsBeforeM(full, "https://", m);
    var s1 := if StartsWith(full, "https://") then full[8..] else full;
    var k1 := |full| - |s1|;
    assert s1 == full[k1..];
    assert s1[m - k1..] == tail;
    PrefixStopsBeforeM(s1, "http://", m - k1);
    var r := if StartsWith(s1, "http://") then s1[7..] else s1;
    assert r == StripScheme(full);
    var k2 := |s1| - |r|;
    assert r == s1[k2..];
    assert r[m - k1 - k2..] == tail;
  }

  /** "/models/..." after an address rules out an "http://" prefix unless the
      address itself starts with "http:/". */
  lemma NoHttpPrefix(ovmsAddress: string, modelName: string)
    requires !StartsWith(ovmsAddress, "http:/")
    ensures !StartsWith(ovmsAddress + "/models/" + modelName, "http://")
  {
    var full := ovmsAddress + "/models/" + modelName;
    var n := |ovmsAddress|;
    assert full[n] == '/' && full[n + 1] == 'm';
    if n >= 6 {
      assert full[..6] == ovmsAddress[..6];
      assert "http://"[..6] == "http:/";
      assert |full| < 7 || full[..7][..6] == full[..6];
    } else if |full| >= 7 {
      assert full[..7][n + 1] == 'm';
      assert forall i :: 0 <= i < 7 ==> "http://"[i] != 'm';
    }
  }

  /** The same for "https://", which needs an address starting with "https:/". */
  lemma NoHttpsPrefix(ovmsAddress: string, modelName: string)
    requires !StartsWith(ovmsAddress, "https:/")
    ensures !StartsWith(ovmsAddress + "/models/" + modelName, "https://")
  {
    var full := ovmsAddress + "/models/" + modelName;
    var n := |ovmsAddress|;
    assert full[n] == '/' && full[n + 1] == 'm';
    if n >= 7 {
      assert full[..7] == ovmsAddress[..7];
      assert "https://"[..7] == "https:/";
      assert |full| < 8 || full[..8][..7] == full[..7];
    } else if |full| >= 8 {
      assert full[..8][n + 1] == 'm';
      assert forall i :: 0 <= i < 8 ==> "https://"[i] != 'm';
    }
  }

  /** An address that does not begin with "http:/" or "https:/" only gets the
      model path appended. */
  lemma AddressWithoutScheme(ovmsAddress: string, modelName: string)
    requires !StartsWith(ovmsAddress, "http:/") && !StartsWith(ovmsAddress, "https:/")
    ensures GenerateOvmsModelAddress(ovmsAddress, modelName) == ovmsAddress + "/models/" + modelName
  {
    NoHttpPrefix(ovmsAddress, modelName);
    NoHttpsPrefix(ovmsAddress, modelName);
  }

  /** "http://" in front of any host is removed. */
  lemma AddressWithHttp(host: string, modelName: string)
    ensures GenerateOvmsModelAddress("http://" + host, modelName) == host + "/models/" + modelName
  {
    var full := "http://" + host + "/models/" + modelName;
    assert full[4] == ':';
    assert !StartsWith(full, "https://");
    assert full[..7] == "http://";
    assert full[7..] == host + "/models/" + modelName;
  }

  /** "https://" in front of a host is removed. */
  lemma AddressWithHttps(host: string, modelName: string)
    requires !StartsWith(host, "http:/")
    ensures GenerateOvmsModelAddress("https://" + host, modelName) == host + "/models/" + modelName
  {
    var full := "https://" + host + "/models/" + modelName;
    assert full[..8] == "https://";
    assert full[8..] == host + "/models/" + modelName;
    NoHttpPrefix(host, modelName);
  }

  /** Both checks run in turn: "https://http://" loses both prefixes. */
  lemma AddressStripsBothSchemes(host: string, modelName: string)
    ensures GenerateOvmsModelAddress("https://http://" + host, modelName) == host + "/models/" + modelName
  {
    var full := "https://http://" + host + "/models/" + modelName;
    assert full[..8] == "https://";
    assert full[8..] == "http://" + host + "/models/" + modelName;
    var s1 := full[8..];
    assert s1[..7] == "http://";
    assert s1[7..] == host + "/models/" + modelName;
  }

  /** A second "https://" is not removed: the result can still carry a scheme. */
  lemma AddressKeepsSecondHttps(host: string, modelName: string)
    ensures GenerateOvmsModelAddress("https://https://" + host, modelName)
         == "https://" + host + "/models/" + modelName
  {
    var rest := "https://" + host + "/models/" + modelName;
    var full := "https://https://" + host + "/models/" + modelName;
    assert full == "https://" + rest;
    assert full[..8] == "https://" && full[8..] == rest;
    assert rest[..7][4] == 's';
  }

  lemma AddressExample()
    ensures GenerateOvmsModelAddress("https://1.2.3.4:5000", "foo") == "1.2.3.4:5000/models/foo"
  {
    assert "1.2.3.4:5000"[..6][0] == '1';
    AddressWithHttps("1.2.3.4:5000", "foo");
    assert "https://" + "1.2.3.4:5000" == "https://1.2.3.4:5000";
  }

  // ---------------------------------------------------------------------------
  // Server address test (utils.py:77-88): a recogniser for the pattern
  //   ^((https?://)|(www.))(?:([a-zA-Z]+)|(\d+\.\d+\.\d+\.\d+)):\d{1,5}?$
  // as `re.match` applies it: `.` is any character but a newline, and `$` also
  // matches just before a newline that ends the text.
  // ---------------------------------------------------------------------------

  /** The first group of the pattern: "http://", "https://", or "www" and one character. */
  datatype Scheme = Http | Https | Www(any: char)

  function SchemeText(s: Scheme): string {
    match s
    case Http => "http://"
    case Https => "https://"
    case Www(c) => "www" + [c]
  }

  /** A text the pattern matches, split into the pattern's parts. */
  datatype ServerAddress = ServerAddress(scheme: Scheme, host: string, port: string, finalNewline: bool)

  predicate IsDigitRun(s: string) {
    |s| > 0 && forall i :: 0 <= i < |s| ==> IsAsciiDigit(s[i])
  }

  /** `[a-zA-Z]+` */
  predicate IsLetterRun(s: string) {
    |s| > 0 && forall i :: 0 <= i < |s| ==> IsAsciiLetter(s[i])
  }

  /** The pieces of `s` between dots. */
  function SplitDots(s: string): (parts: seq<string>)
    ensures |parts| >= 1
    decreases |s|
  {
    var k := IndexOf(s, '.');
    if k == |s| then [s] else [s[..k]] + SplitDots(s[k + 1..])
  }

  /** `\d+\.\d+\.\d+\.\d+` */
  predicate IsDottedQuad(s: string) {
    var parts := SplitDots(s);
    |parts| == 4 && forall p :: p in parts ==> IsDigitRun(p)
  }

  /** The pattern's structure, one part at a time. */
  predicate ValidServerAddress(a: ServerAddress) {
    && (a.scheme.Www? ==> a.scheme.any != '\n')
    && (IsLetterRun(a.host) || IsDottedQuad(a.host))
    && IsDigitRun(a.port) && |a.port| <= 5
  }

  function PortText(port: string, finalNewline: bool): string {
    port + (if finalNewline then "\n" else "")
  }

  function Render(a: ServerAddress): string {
    SchemeText(a.scheme) + a.host + ":" + PortText(a.port, a.finalNewline)
  }

  function ParseScheme(s: string): Option<(Scheme, string)> {
    if StartsWith(s, "https://") then Some((Https, s[8..]))
    else if StartsWith(s, "http://") then Some((Http, s[7..]))
    else if StartsWith(s, "www") && |s| >= 4 && s[3] != '\n' then Some((Www(s[3]), s[4..]))
    else None
  }

  /** What follows the ':': the port, and whether one final newline follows it. */
  function SplitPort(tail: string): (string, bool) {
    if |tail| > 0 && tail[|tail| - 1] == '\n' then (tail[..|tail| - 1], true) else (tail, false)
  }

  /** The host runs up to the first ':'. */
  function ParseHostAndPort(scheme: Scheme, rest: string): Option<ServerAddress> {
    var k := IndexOf(rest, ':');
    if k == |rest| then None
    else
      var (port, newline) := SplitPort(rest[k + 1..]);
      var a := ServerAddress(scheme, rest[..k], port, newline);
      if ValidServerAddress(a) then Some(a) else None
  }

  /** The recogniser: the scheme, the host up to the first ':', then the port,
      optionally followed by one final newline. */
  function ParseServerAddress(s: string): Option<ServerAddress> {
    match ParseScheme(s)
    case None => None
    case Some((scheme, rest)) => ParseHostAndPort(scheme, rest)
  }

  /** `target_device_is_ovms` */
  function TargetDeviceIsOvms(device: string): bool {
    ParseServerAddress(device).Some?
  }

  lemma ParseSchemeSound(s: string)
    requires ParseScheme(s).Some?
    ensures s == SchemeText(ParseScheme(s).value.0) + ParseScheme(s).value.1
  {
    if StartsWith(s, "https://") {
      assert s == s[..8] + s[8..];
    } else if StartsWith(s, "http://") {
      assert s == s[..7] + s[7..];
    } else {
      assert s == s[..3] + [s[3]] + s[4..];
    }
  }

  lemma SplitPortSound(tail: string)
    ensures PortText(SplitPort(tail).0, SplitPort(tail).1) == tail
  {
    if |tail| > 0 && tail[|tail| - 1] == '\n' {
      assert tail == tail[..|tail| - 1] + "\n";
    }
  }

  /** Splitting at a ':' and rendering the pieces spells the text again. */
  lemma RenderSplitAtColon(scheme: Scheme, rest: string, k: nat)
    requires k < |rest| && rest[k] == ':'
    ensures var split := SplitPort(rest[k + 1..]);
            Render(ServerAddress(scheme, rest[..k], split.0, split.1)) == SchemeText(scheme) + rest
  {
    var tail := rest[k + 1..];
    SplitPortSound(tail);
    assert rest == rest[..k] + ":" + tail;
  }

  lemma ParseHostAndPortSound(scheme: Scheme, rest: string)
    requires ParseHostAndPort(scheme, rest).Some?
    ensures Render(ParseHostAndPort(scheme, rest).value) == SchemeText(scheme) + rest
  {
    RenderSplitAtColon(scheme, rest, IndexOf(rest, ':'));
  }

  /** What the recogniser accepts matches the pattern part by part and spells the input. */
  lemma ParseServerAddressSound(s: string)
    requires ParseServerAddress(s).Some?
    ensures ValidServerAddress(ParseServerAddress(s).value)
    ensures Render(ParseServerAddress(s).value) == s
  {
    ParseSchemeSound(s);
    var (scheme, rest) := ParseScheme(s).value;
    assert ParseServerAddress(s) == ParseHostAndPort(scheme, rest);
    ParseHostAndPortSound(scheme, rest);
  }

  /** A host the pattern accepts has no ':'. */
  lemma HostHasNoColon(h: string)
    requires IsLetterRun(h) || IsDottedQuad(h)
    ensures forall i :: 0 <= i < |h| ==> h[i] != ':'
  {
    if !IsLetterRun(h) {
      SplitDotsNoColon(h);
    }
  }

  lemma {:induction false} SplitDotsNoColon(s: string)
    requires forall p :: p in SplitDots(s) ==> IsDigitRun(p)
    ensures forall i :: 0 <= i < |s| ==> s[i] != ':'
    decreases |s|
  {
    var k := IndexOf(s, '.');
    var parts := SplitDots(s);
    assert parts[0] in parts;
    if k == |s| {
      assert parts[0] == s;
    } else {
      assert parts[0] == s[..k];
      var rest := s[k + 1..];
      assert SplitDots(s) == [s[..k]] + SplitDots(rest);
      forall p | p in SplitDots(rest) ensures IsDigitRun(p) {
        assert p in parts;
      }
      SplitDotsNoColon(rest);
      forall i | 0 <= i < |s| ensures s[i] != ':' {
        if i < k { assert s[i] == parts[0][i]; }
        else if i > k { assert s[i] == rest[i - k - 1]; }
      }
    }
  }

  /** The first `c` in `a + [c] + b` is the one after `a` when `a` has none. */
  lemma {:induction false} IndexOfAfter(a: string, c: char, b: string)
    requires forall i :: 0 <= i < |a| ==> a[i] != c
    ensures IndexOf(a + [c] + b, c) == |a|
  {
    if a != [] {
      assert (a + [c] + b)[1..] == a[1..] + [c] + b;
      IndexOfAfter(a[1..], c, b);
    }
  }

  lemma ParseSchemeComplete(scheme: Scheme, rest: string)
    requires scheme.Www? ==> scheme.any != '\n'
    ensures ParseScheme(SchemeText(scheme) + rest) == Some((scheme, rest))
  {
    var s := SchemeText(scheme) + rest;
    match scheme {
      case Https =>
        assert s[..8] == "https://" && s[8..] == rest;
      case Http =>
        assert s[..7] == "http://" && s[7..] == rest;
        assert s[4] == ':';
      case Www(c) =>
        assert s[..3] == "www" && s[3] == c && s[4..] == rest;
        assert s[0] == 'w';
    }
  }

  lemma SplitPortComplete(port: string, finalNewline: bool)
    requires IsDigitRun(port)
    ensures SplitPort(PortText(port, finalNewline)) == (port, finalNewline)
  {
    var tail := PortText(port, finalNewline);
    if finalNewline {
      assert tail[..|tail| - 1] == port;
    } else {
      assert tail == port;
      assert IsAsciiDigit(tail[|tail| - 1]);
    }
  }

  /** After the scheme, a valid host, ':' and port are split back into those parts. */
  lemma ParseHostAndPortComplete(a: ServerAddress)
    requires ValidServerAddress(a)
    ensures ParseHostAndPort(a.scheme, a.host + ":" + PortText(a.port, a.finalNewline)) == Some(a)
  {
    var tail := PortText(a.port, a.finalNewline);
    var rest := a.host + ":" + tail;
    HostHasNoColon(a.host);
    IndexOfAfter(a.host, ':', tail);
    assert rest[..|a.host|] == a.host;
    assert rest[|a.host| + 1..] == tail;
    SplitPortComplete(a.port, a.finalNewline);
  }

  /** Every text that matches the pattern part by part is accepted, and split the same way. */
  lemma ParseServerAddressComplete(a: ServerAddress)
    requires ValidServerAddress(a)
    ensures ParseServerAddress(Render(a)) == Some(a)
  {
    var rest := a.host + ":" + PortText(a.port, a.finalNewline);
    assert Render(a) == SchemeText(a.scheme) + rest;
    ParseSchemeComplete(a.scheme, rest);
    ParseHostAndPortComplete(a);
  }

  /** `target_device_is_ovms` holds exactly of the texts the pattern describes. */
  lemma TargetDeviceIsOvmsCharacterised(s: string)
    ensures TargetDeviceIsOvms(s) <==> exists a :: ValidServerAddress(a) && Render(a) == s
  {
    if TargetDeviceIsOvms(s) {
      ParseServerAddressSound(s);
    }
    if exists a :: ValidServerAddress(a) && Render(a) == s {
      var a :| ValidServerAddress(a) && Render(a) == s;
      ParseServerAddressComplete(a);
    }
  }

  /** Without an "http://", "https://" or "www" prefix the answer is false. */
  lemma NoSchemeIsNotOvms(s: string)
    requires !StartsWith(s, "http://") && !StartsWith(s, "https://") && !StartsWith(s, "www")
    ensures !TargetDeviceIsOvms(s)
  {
  }

  /** A text that starts with neither 'h' nor 'w' has no such prefix. */
  lemma FirstCharRulesOutScheme(s: string)
    requires |s| > 0 && s[0] != 'h' && s[0] != 'w'
    ensures !TargetDeviceIsOvms(s)
  {
    assert |s| < 3 || s[..3][0] == s[0];
    assert |s| < 7 || s[..7][0] == s[0];
    assert |s| < 8 || s[..8][0] == s[0];
    NoSchemeIsNotOvms(s);
  }

  /** An accepted text has a port of one to five digits. */
  lemma PortHasOneToFiveDigits(s: string)
    requires TargetDeviceIsOvms(s)
    ensures 1 <= |ParseServerAddress(s).value.port| <= 5
  {
  }

  lemma SplitDotsCons(a: string, rest: string)
    requires IsDigitRun(a)
    ensures SplitDots(a + "." + rest) == [a] + SplitDots(rest)
  {
    DigitRunHasNoDot(a);
    IndexOfAfter(a, '.', rest);
    var s := a + "." + rest;
    assert s[..|a|] == a && s[|a| + 1..] == rest;
  }

  lemma DigitRunHasNoDot(s: string)
    requires IsDigitRun(s)
    ensures forall i :: 0 <= i < |s| ==> s[i] != '.'
    ensures SplitDots(s) == [s]
  {
    assert forall i :: 0 <= i < |s| ==> IsAsciiDigit(s[i]);
  }

  lemma SplitDotsPair(c: string, d: string)
    requires IsDigitRun(c) && IsDigitRun(d)
    ensures SplitDots(c + "." + d) == [c, d]
  {
    DigitRunHasNoDot(d);
    SplitDotsCons(c, d);
  }

  lemma SplitDotsTriple(b: string, c: string, d: string)
    requires IsDigitRun(b) && IsDigitRun(c) && IsDigitRun(d)
    ensures SplitDots(b + "." + (c + "." + d)) == [b, c, d]
  {
    SplitDotsPair(c, d);
    SplitDotsCons(b, c + "." + d);
  }

  /** Four digit runs joined by dots form a dotted quad. */
  lemma DottedQuadOf(a: string, b: string, c: string, d: string)
    requires IsDigitRun(a) && IsDigitRun(b) && IsDigitRun(c) && IsDigitRun(d)
    ensures IsDottedQuad(a + "." + (b + "." + (c + "." + d)))
  {
    var bcd := b + "." + (c + "." + d);
    SplitDotsTriple(b, c, d);
    SplitDotsCons(a, bcd);
    assert SplitDots(a + "." + bcd) == [a, b, c, d];
  }

  /** A letters-only host behind "http://" with a port of one to five digits is accepted. */
  lemma NamedHttpServerIsOvms(host: string, port: string)
    requires IsLetterRun(host) && IsDigitRun(port) && |port| <= 5
    ensures TargetDeviceIsOvms("http://" + host + ":" + port)
  {
    var named := ServerAddress(Http, host, port, false);
    ParseServerAddressComplete(named);
    assert Render(named) == "http://" + host + ":" + port;
  }

  /** An IPv4-shaped host behind "https://" with a valid port is accepted; the
      octets are not range-checked, so "999" passes as well as "192". */
  lemma DottedQuadServerIsOvms(a: string, b: string, c: string, d: string, port: string)
    requires IsDigitRun(a) && IsDigitRun(b) && IsDigitRun(c) && IsDigitRun(d)
    requires IsDigitRun(port) && |port| <= 5
    ensures TargetDeviceIsOvms("https://" + (a + "." + (b + "." + (c + "." + d))) + ":" + port)
  {
    var host := a + "." + (b + "." + (c + "." + d));
    DottedQuadOf(a, b, c, d);
    var quad := ServerAddress(Https, host, port, false);
    ParseServerAddressComplete(quad);
    assert Render(quad) == "https://" + host + ":" + port;
  }

  lemma DeviceNamesAreNotOvms()
    ensures !TargetDeviceIsOvms("CPU")
    ensures !TargetDeviceIsOvms("GPU")
    ensures !TargetDeviceIsOvms("192.168.1.1:9000")
  {
    FirstCharRulesOutScheme("CPU");
    FirstCharRulesOutScheme("GPU");
    FirstCharRulesOutScheme("192.168.1.1:9000");
  }

  /** A colon with no port after it is rejected. */
  lemma EmptyPortIsNotOvms(host: string)
    requires IsLetterRun(host)
    ensures !TargetDeviceIsOvms("http://" + host + ":")
  {
    BadPortIsNotOvms(host, "");
    assert "http://" + host + ":" + "" == "http://" + host + ":";
  }

  /** A six-digit port is rejected. */
  lemma SixDigitPortIsNotOvms(host: string)
    requires IsLetterRun(host)
    ensures !TargetDeviceIsOvms("http://" + host + ":123456")
  {
    var tail := "123456";
    assert SplitPort(tail) == (tail, false) by {
      assert tail[|tail| - 1] == '6';
    }
    BadPortIsNotOvms(host, tail);
    assert ":" + tail == ":123456";
    assert "http://" + host + ":" + tail == "http://" + host + ":123456";
  }

  /** After a scheme and a host, anything but one to five digits (and an optional
      final newline) is rejected: no port, or six digits and more. */
  lemma BadPortIsNotOvms(host: string, tail: string)
    requires IsLetterRun(host)
    requires !(IsDigitRun(SplitPort(tail).0) && |SplitPort(tail).0| <= 5)
    ensures !TargetDeviceIsOvms("http://" + host + ":" + tail)
  {
    var rest := host + ":" + tail;
    assert "http://" + host + ":" + tail == SchemeText(Http) + rest;
    ParseSchemeComplete(Http, rest);
    HostHasNoColon(host);
    IndexOfAfter(host, ':', tail);
    assert rest[|host| + 1..] == tail;
  }
}
