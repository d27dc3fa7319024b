/** config/config.go: default memory sizing, proxy and home-directory lookup, and the paths
    derived from the home directory. Environment variables, the home-directory lookup and
    the system memory queries are inputs. */
module Config {
  import opened Results
  import opened Text
  import FileSystem

  /** Go's uint64. */
  type u64 = x: int | 0 <= x < 0x1_0000_0000_0000_0000

  const MinMemory: u64 := 3072
  const MaxMemory: u64 := 4096
  const SpringCloudMinMemory: u64 := 6144
  const SpringCloudMaxMemory: u64 := 8192

  datatype Config = Config(
    defaultVMName: string,
    expectedMD5: string,
    pcfdevHome: string,
    ovaDir: string,
    ovaPath: string,
    partialOVAPath: string,
    vmDir: string,
    httpProxy: string,
    httpsProxy: string,
    noProxy: string,
    minMemory: u64,
    maxMemory: u64,
    totalMemory: u64,
    freeMemory: u64,
    defaultMemory: u64,
    springCloudDefaultMemory: u64,
    springCloudMinMemory: u64,
    springCloudMaxMemory: u64,
    insecurePrivateKey: seq<FileSystem.byte>,
    privateKeyPath: string)

  /** `getDefaultMemory`: half of the total memory, clamped to [minMemory, maxMemory]. The
      lower bound is tested first, so when the bounds cross the minimum wins only if half the
      total is at most the minimum, and the maximum wins otherwise. */
  function DefaultMemory(totalMemory: u64, minMemory: u64, maxMemory: u64): (r: u64)
    ensures totalMemory / 2 <= minMemory ==> r == minMemory
    ensures minMemory < totalMemory / 2 && totalMemory / 2 >= maxMemory ==> r == maxMemory
    ensures minMemory < totalMemory / 2 < maxMemory ==> r == totalMemory / 2
    ensures minMemory <= maxMemory ==> minMemory <= r <= maxMemory
  {
    var halfTotal := totalMemory / 2;
    if halfTotal <= minMemory then minMemory
    else if halfTotal >= maxMemory then maxMemory
    else halfTotal
  }

  /** More total memory never lowers the default. */
  lemma DefaultMemoryMonotonic(t1: u64, t2: u64, minMemory: u64, maxMemory: u64)
    requires t1 <= t2 && minMemory <= maxMemory
    ensures DefaultMemory(t1, minMemory, maxMemory) <= DefaultMemory(t2, minMemory, maxMemory)
  {
    assert t1 / 2 <= t2 / 2;
  }

  /** `stripWhitespace`: `s` with every whitespace rune dropped. */
  function StripWhitespace(s: string): (r: string)
    ensures |r| <= |s|
    ensures forall c :: c in r <==> c in s && !IsSpace(c)
  {
    if s == [] then []
    else (if IsSpace(s[0]) then [] else [s[0]]) + StripWhitespace(s[1..])
  }

  lemma {:induction false} StripWhitespaceAppend(a: string, b: string)
    ensures StripWhitespace(a + b) == StripWhitespace(a) + StripWhitespace(b)
  {
    if a != [] {
      assert (a + b)[1..] == a[1..] + b;
      StripWhitespaceAppend(a[1..], b);
    } else {
      assert a + b == b;
    }
  }

  /** Text without whitespace is left as it is, so stripping is idempotent. */
  lemma {:induction false} StripWhitespaceKeepsClean(s: string)
    requires forall c :: c in s ==> !IsSpace(c)
    ensures StripWhitespace(s) == s
  {
    if s != [] {
      assert s == [s[0]] + s[1..];
      StripWhitespaceKeepsClean(s[1..]);
    }
  }

  lemma StripWhitespaceIdempotent(s: string)
    ensures StripWhitespace(StripWhitespace(s)) == StripWhitespace(s)
  {
    StripWhitespaceKeepsClean(StripWhitespace(s));
  }

  /** os.Getenv: an unset variable reads as the empty string. */
  function Getenv(env: map<string, string>, key: string): string
  {
    if key in env then env[key] else ""
  }

  /** The proxy getters: the upper-case variable when it is non-empty, else the lower-case one,
      whitespace stripped in both cases. */
  function Proxy(env: map<string, string>, upper: string, lower: string): (r: string)
    ensures Getenv(env, upper) != "" ==> r == StripWhitespace(Getenv(env, upper))
    ensures Getenv(env, upper) == "" ==> r == StripWhitespace(Getenv(env, lower))
  {
    var proxy := Getenv(env, upper);
    if proxy != "" then StripWhitespace(proxy) else StripWhitespace(Getenv(env, lower))
  }

  function HTTPProxy(env: map<string, string>): string { Proxy(env, "HTTP_PROXY", "http_proxy") }
  function HTTPSProxy(env: map<string, string>): string { Proxy(env, "HTTPS_PROXY", "https_proxy") }
  function NoProxy(env: map<string, string>): string { Proxy(env, "NO_PROXY", "no_proxy") }

  /** An upper-case variable holding only whitespace still wins: the result is empty and the
      lower-case variable is never read. */
  lemma BlankUpperProxyShadowsLower(env: map<string, string>, upper: string, lower: string)
    requires upper in env && env[upper] != [] && AllSpace(env[upper])
    ensures Proxy(env, upper, lower) == ""
  {
    var s := env[upper];
    if StripWhitespace(s) != [] {
      var c := StripWhitespace(s)[0];
      assert c in StripWhitespace(s);
    }
  }

  /** `getPCFDevHome`: PCFDEV_HOME when set, otherwise `<home>/.pcfdev`. */
  function PCFDevHome(env: map<string, string>, home: Result<string>): (r: Result<string>)
    ensures Getenv(env, "PCFDEV_HOME") != "" ==> r == Ok(env["PCFDEV_HOME"])
    ensures Getenv(env, "PCFDEV_HOME") == "" && home.Ok? ==> r == Ok(FileSystem.Join(home.value, ".pcfdev"))
    ensures Getenv(env, "PCFDEV_HOME") == "" && home.Err? ==> r == Err("failed to find home directory: " + home.error)
  {
    var pcfdevHome := Getenv(env, "PCFDEV_HOME");
    if pcfdevHome != "" then Ok(pcfdevHome)
    else if home.Err? then Err("failed to find home directory: " + home.error)
    else Ok(FileSystem.Join(home.value, ".pcfdev"))
  }

  /** `New`: the home lookup, then FreeMemory, then TotalMemory; the first error is returned. */
  function New(defaultVMName: string, expectedMD5: string, insecurePrivateKey: seq<FileSystem.byte>,
               env: map<string, string>, home: Result<string>,
               freeMemory: Result<u64>, totalMemory: Result<u64>): (r: Result<Config>)
    ensures PCFDevHome(env, home).Err? ==> r == Err(PCFDevHome(env, home).error)
    ensures PCFDevHome(env, home).Ok? && freeMemory.Err? ==> r == Err(freeMemory.error)
    ensures PCFDevHome(env, home).Ok? && freeMemory.Ok? && totalMemory.Err? ==> r == Err(totalMemory.error)
    ensures r.Ok? ==> PCFDevHome(env, home).Ok? && freeMemory.Ok? && totalMemory.Ok?
  {
    var pcfdevHome :- PCFDevHome(env, home);
    var free :- freeMemory;
    var total :- totalMemory;
    Ok(Config(
      defaultVMName := defaultVMName,
      expectedMD5 := expectedMD5,
      pcfdevHome := pcfdevHome,
      ovaDir := FileSystem.Join(pcfdevHome, "ova"),
      ovaPath := FileSystem.Join(FileSystem.Join(pcfdevHome, "ova"), defaultVMName + ".ova"),
      partialOVAPath := FileSystem.Join(FileSystem.Join(pcfdevHome, "ova"), defaultVMName + ".ova.partial"),
      vmDir := FileSystem.Join(pcfdevHome, "vms"),
      httpProxy := HTTPProxy(env),
      httpsProxy := HTTPSProxy(env),
      noProxy := NoProxy(env),
      minMemory := MinMemory,
      maxMemory := MaxMemory,
      totalMemory := total,
      freeMemory := free,
      defaultMemory := DefaultMemory(total, MinMemory, MaxMemory),
      springCloudDefaultMemory := DefaultMemory(total, SpringCloudMinMemory, SpringCloudMaxMemory),
      springCloudMinMemory := SpringCloudMinMemory,
      springCloudMaxMemory := SpringCloudMaxMemory,
      insecurePrivateKey := insecurePrivateKey,
      privateKeyPath := FileSystem.Join(FileSystem.Join(pcfdevHome, "vms"), "key.pem")))
  }

  /** Every path of a built configuration hangs off the PCF Dev home; the partial download sits
      next to the OVA under the same name plus ".partial"; both memory defaults are
      `getDefaultMemory` of the total memory, within their bounds; the proxies are read from
      the environment; the remaining fields are the arguments as given. */
  lemma NewConfigShape(defaultVMName: string, expectedMD5: string, insecurePrivateKey: seq<FileSystem.byte>,
                       env: map<string, string>, home: Result<string>,
                       freeMemory: Result<u64>, totalMemory: Result<u64>)
    requires New(defaultVMName, expectedMD5, insecurePrivateKey, env, home, freeMemory, totalMemory).Ok?
    ensures var c := New(defaultVMName, expectedMD5, insecurePrivateKey, env, home, freeMemory, totalMemory).value;
      && Ok(c.pcfdevHome) == PCFDevHome(env, home)
      && c.ovaDir == FileSystem.Join(c.pcfdevHome, "ova")
      && c.ovaPath == FileSystem.PathString(FileSystem.Path(c.ovaDir, defaultVMName + ".ova"))
      && c.partialOVAPath == c.ovaPath + ".partial"
      && c.vmDir == FileSystem.Join(c.pcfdevHome, "vms")
      && c.privateKeyPath == FileSystem.PathString(FileSystem.Path(c.vmDir, "key.pem"))
      && c.freeMemory == freeMemory.value && c.totalMemory == totalMemory.value
      && c.minMemory == 3072 && c.maxMemory == 4096
      && c.springCloudMinMemory == 6144 && c.springCloudMaxMemory == 8192
      && c.defaultMemory == DefaultMemory(c.totalMemory, 3072, 4096)
      && c.springCloudDefaultMemory == DefaultMemory(c.totalMemory, 6144, 8192)
      && 3072 <= c.defaultMemory <= 4096
      && 6144 <= c.springCloudDefaultMemory <= 8192
      && c.httpProxy == Proxy(env, "HTTP_PROXY", "http_proxy")
      && c.httpsProxy == Proxy(env, "HTTPS_PROXY", "https_proxy")
      && c.noProxy == Proxy(env, "NO_PROXY", "no_proxy")
      && c.defaultVMName == defaultVMName && c.expectedMD5 == expectedMD5
      && c.insecurePrivateKey == insecurePrivateKey
  {
  }
}
