/**
  The application table of reelapps-shared/config and the search for the
  application that serves the current page.
 */
module AppConfig {
  import opened Wrappers

  const MainDomain: string := "reelapps.co.za"

  datatype AppKey = ReelHunter | ReelCV | ReelPersona | ReelProjects | ReelSkills

  datatype App = App(name: string, domain: string, port: nat, description: string)

  datatype Entry = Entry(key: AppKey, config: App)

  /** `APP_CONFIG.APPS`, in declaration order: the order `Object.entries` yields. */
  const Apps: seq<Entry> := [
    Entry(ReelHunter, App("ReelHunter", "reelhunter.reelapps.co.za", 5175,
                          "AI-powered recruiter matching platform")),
    Entry(ReelCV, App("ReelCV", "reelcv.reelapps.co.za", 5176,
                      "Interactive CV builder with video integration")),
    Entry(ReelPersona, App("ReelPersona", "reelpersona.reelapps.co.za", 5177,
                           "AI personality analysis for professionals")),
    Entry(ReelProjects, App("ReelProjects", "reelprojects.reelapps.co.za", 5178,
                            "Project showcase and portfolio builder")),
    Entry(ReelSkills, App("ReelSkills", "reelskills.reelapps.co.za", 5179,
                          "Skills assessment and verification platform"))
  ]

  /** Where key `k` stands in the table. */
  function Position(k: AppKey): (i: nat)
    ensures i < |Apps| && Apps[i].key == k
  {
    match k
    case ReelHunter => 0
    case ReelCV => 1
    case ReelPersona => 2
    case ReelProjects => 3
    case ReelSkills => 4
  }

  /** `getAppConfig`: the record stored under key `k`, and no other. */
  function GetAppConfig(k: AppKey): (a: App)
    ensures forall i :: 0 <= i < |Apps| && Apps[i].key == k ==> Apps[i].config == a
  {
    Apps[Position(k)].config
  }

  predicate EndsWith(s: string, suffix: string) {
    |suffix| <= |s| && s[|s| - |suffix|..] == suffix
  }

  /** One entry per key: the table is a map from the five keys. */
  lemma KeysDistinct()
    ensures forall i, j :: 0 <= i < j < |Apps| ==> Apps[i].key != Apps[j].key
  {
  }

  /** No two apps share a development port. */
  lemma PortsDistinct()
    ensures forall i, j :: 0 <= i < j < |Apps| ==> Apps[i].config.port != Apps[j].config.port
  {
  }

  lemma EndsWithAppended(prefix: string, suffix: string)
    ensures EndsWith(prefix + suffix, suffix)
  {
    var s := prefix + suffix;
    assert s[|s| - |suffix|..] == suffix;
  }

  /** Every app lives on a sub-domain of the main domain. */
  lemma DomainUnderMainDomain(k: AppKey)
    ensures EndsWith(GetAppConfig(k).domain, "." + MainDomain)
  {
    var suffix := "." + MainDomain;
    var d := GetAppConfig(k).domain;
    match k
    case ReelHunter => assert d == "reelhunter" + suffix; EndsWithAppended("reelhunter", suffix);
    case ReelCV => assert d == "reelcv" + suffix; EndsWithAppended("reelcv", suffix);
    case ReelPersona => assert d == "reelpersona" + suffix; EndsWithAppended("reelpersona", suffix);
    case ReelProjects => assert d == "reelprojects" + suffix; EndsWithAppended("reelprojects", suffix);
    case ReelSkills => assert d == "reelskills" + suffix; EndsWithAppended("reelskills", suffix);
  }

  // ---------------------------------------------------------------------
  // Strings

  /** `s.includes(t)`: `t` occurs in `s` at some offset. */
  predicate Includes(s: string, t: string) {
    exists i :: 0 <= i <= |s| - |t| && OccursAt(s, t, i)
  }

  predicate OccursAt(s: string, t: string, i: nat) {
    i + |t| <= |s| && s[i..i + |t|] == t
  }

  function Digit(d: nat): (c: char)
    requires d < 10
    ensures '0' <= c <= '9'
  {
    ('0' as int + d) as char
  }

  predicate AllDigits(s: string) {
    forall k :: 0 <= k < |s| ==> '0' <= s[k] <= '9'
  }

  /** A number as a template literal renders it: its decimal digits. */
  function DecimalText(n: nat): (r: string)
    ensures |r| > 0 && AllDigits(r)
    decreases n
  {
    if n < 10 then [Digit(n)] else DecimalText(n / 10) + [Digit(n % 10)]
  }

  /** The number a string of decimal digits denotes. */
  function DecimalValue(s: string): nat
    requires AllDigits(s)
    decreases |s|
  {
    if s == [] then 0 else DecimalValue(s[..|s| - 1]) * 10 + (s[|s| - 1] as int - '0' as int)
  }

  /** Reading back a rendered number gives the number: the rendering is injective. */
  lemma {:induction false} DecimalRoundTrip(n: nat)
    ensures DecimalValue(DecimalText(n)) == n
    decreases n
  {
    if n >= 10 {
      var prefix := DecimalText(n / 10);
      var s := prefix + [Digit(n % 10)];
      assert s[..|s| - 1] == prefix;
      DecimalRoundTrip(n / 10);
    }
  }

  // ---------------------------------------------------------------------
  // Finding the current application

  /** The text `localhost:${port}` searched for in the host name. */
  function LocalhostNeedle(port: nat): string {
    "localhost:" + DecimalText(port)
  }

  /** The test of line 45: the host name holds the app's domain or its local address. */
  predicate Matches(host: string, a: App) {
    Includes(host, a.domain) || Includes(host, LocalhostNeedle(a.port))
  }

  /** Entry `i` matches `host` and no entry before it does. */
  predicate IsFirstMatch(host: string, i: int) {
    && 0 <= i < |Apps|
    && Matches(host, Apps[i].config)
    && forall j :: 0 <= j < i ==> !Matches(host, Apps[j].config)
  }

  datatype CurrentApp = CurrentApp(key: AppKey, name: string, domain: string, port: nat, description: string)

  /** `{ key, ...config }` */
  function WithKey(e: Entry): CurrentApp {
    CurrentApp(e.key, e.config.name, e.config.domain, e.config.port, e.config.description)
  }

  /**
    `getCurrentAppConfig`, given the host name it reads: the first entry, in
    declaration order, whose domain or local address the host name includes.
   */
  method GetCurrentAppConfig(hostname: string) returns (r: Option<CurrentApp>)
    ensures r == None <==> forall i :: 0 <= i < |Apps| ==> !Matches(hostname, Apps[i].config)
    ensures forall i :: IsFirstMatch(hostname, i) ==> r == Some(WithKey(Apps[i]))
  {
    var i := 0;
    while i < |Apps|
      invariant 0 <= i <= |Apps|
      invariant forall j :: 0 <= j < i ==> !Matches(hostname, Apps[j].config)
    {
      var e := Apps[i];
      if Includes(hostname, e.config.domain) || Includes(hostname, LocalhostNeedle(e.config.port)) {
        assert IsFirstMatch(hostname, i);
        return Some(WithKey(e));
      }
      i := i + 1;
    }
    return None;
  }

  // ---------------------------------------------------------------------
  // Where the host name comes from

  /** The parts of `window.location` that matter here. */
  datatype Location = Location(hostname: string, port: string)

  /** Line 42: `window.location.hostname`, or the empty string with no window. */
  function HostnameOf(window: Option<Location>): (h: string)
    ensures window.None? ==> h == ""
    ensures window.Some? ==> h == window.value.hostname
  {
    match window
    case Some(loc) => loc.hostname
    case None => ""
  }

  /** `window.location.host`: the host name followed by `:port` when a port is given. */
  function HostOf(window: Option<Location>): string {
    match window
    case Some(loc) => if loc.port == "" then loc.hostname else loc.hostname + ":" + loc.port
    case None => ""
  }

  /** With no window there is nothing to match, so the search answers null. */
  lemma NoWindowNoApp()
    ensures forall i :: 0 <= i < |Apps| ==> !Matches(HostnameOf(None), Apps[i].config)
    ensures forall i :: 0 <= i < |Apps| ==> !Matches(HostOf(None), Apps[i].config)
  {
  }

  /** A development server on `localhost:<port>`, as the browser reports it. */
  function DevServer(port: nat): Location {
    Location("localhost", DecimalText(port))
  }

  /**
    As written: `hostname` never carries the port, so on a development
    server the search over `hostname` matches no entry at all.
   */
  lemma DevServerHostnameMatchesNothing(k: AppKey)
    ensures forall i :: 0 <= i < |Apps| ==>
      !Matches(HostnameOf(Some(DevServer(GetAppConfig(k).port))), Apps[i].config)
  {
  }

  lemma FourDigits(n: nat)
    requires 1000 <= n < 10000
    ensures |DecimalText(n)| == 4
  {
    assert |DecimalText(n / 1000)| == 1;
    assert |DecimalText(n / 100)| == 2 by { assert (n / 100) / 10 == n / 1000; }
    assert |DecimalText(n / 10)| == 3 by { assert (n / 10) / 10 == n / 100; }
  }

  lemma IncludesSameLength(s: string, t: string)
    requires |s| == |t|
    ensures Includes(s, t) <==> s == t
  {
    if s == t {
      assert OccursAt(s, t, 0);
    }
  }

  /**
    Corrected: searching `host` instead, a development server on an app's
    port selects that app.
   */
  lemma DevServerHostSelectsApp(k: AppKey)
    ensures IsFirstMatch(HostOf(Some(DevServer(GetAppConfig(k).port))), Position(k))
  {
    var p := Position(k);
    var host := HostOf(Some(DevServer(GetAppConfig(k).port)));
    assert host == LocalhostNeedle(Apps[p].config.port);
    FourDigits(Apps[p].config.port);
    assert OccursAt(host, LocalhostNeedle(Apps[p].config.port), 0);
    forall j | 0 <= j < p
      ensures !Matches(host, Apps[j].config)
    {
      var pj := Apps[j].config.port;
      FourDigits(pj);
      assert |Apps[j].config.domain| > |host|;
      IncludesSameLength(host, LocalhostNeedle(pj));
      if host == LocalhostNeedle(pj) {
        assert DecimalText(pj) == host[10..];
        assert DecimalText(Apps[p].config.port) == host[10..];
        DecimalRoundTrip(pj);
        DecimalRoundTrip(Apps[p].config.port);
        assert false;
      }
    }
  }
}
