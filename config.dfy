/** Application configuration: the initial caller id and destination number,
    and the externally reachable server URL and host name derived from the
    list of public tunnel URLs (that list is an input; querying the tunnel
    agent is not modelled). */
module Config {
  import opened Webhook

  /** Initial caller id for outbound calls. */
  const InitialCallerId: string := "+16175551234"

  /** Initial number the conference variant forwards to. */
  const InitialDestNum: string := "+13395556789"

  /** `pat` occurs in `s` starting at index `j`. */
  predicate OccursAt(s: string, pat: string, j: int) {
    0 <= j && j + |pat| <= |s| && s[j..j + |pat|] == pat
  }

  /** `t` is a suffix of `s`. */
  predicate IsSuffix(t: string, s: string) {
    |t| <= |s| && s[|s| - |t|..] == t
  }

  lemma OccursAtShift(s: string, pat: string, j: int)
    requires |s| > 0 && 0 <= j
    ensures OccursAt(s, pat, j + 1) <==> OccursAt(s[1..], pat, j)
  {
    if j + 1 + |pat| <= |s| {
      assert s[j + 1..j + 1 + |pat|] == s[1..][j..j + |pat|];
    }
  }

  /** Python's `str.find`: the lowest index at which `pat` occurs in `s`, or -1. */
  function Find(s: string, pat: string): (i: int)
    ensures i == -1 || OccursAt(s, pat, i)
    ensures i == -1 <==> forall j :: !OccursAt(s, pat, j)
    ensures forall j :: j < i ==> !OccursAt(s, pat, j)
    decreases |s|
  {
    if |s| < |pat| then
      -1
    else if s[..|pat|] == pat then
      assert OccursAt(s, pat, 0);
      0
    else
      var k := Find(s[1..], pat);
      assert forall j :: 0 <= j ==> (OccursAt(s, pat, j + 1) <==> OccursAt(s[1..], pat, j)) by {
        forall j | 0 <= j ensures OccursAt(s, pat, j + 1) <==> OccursAt(s[1..], pat, j) {
          OccursAtShift(s, pat, j);
        }
      }
      assert !OccursAt(s, pat, 0);
      assert forall j :: OccursAt(s, pat, j) ==> OccursAt(s[1..], pat, j - 1) by {
        forall j | OccursAt(s, pat, j) ensures OccursAt(s[1..], pat, j - 1) {
          OccursAtShift(s, pat, j - 1);
        }
      }
      if k == -1 then -1 else k + 1
  }

  /** Python's `s[k:]` for a non-negative start: empty once `k` passes the end. */
  function SliceFrom(s: string, k: nat): (t: string)
    ensures IsSuffix(t, s)
    ensures k <= |s| ==> |t| == |s| - k
    ensures k >= |s| ==> t == ""
  {
    if k >= |s| then "" else s[k..]
  }

  /** `SERVER_URL`: the first public URL, if there is one. */
  function ServerUrl(urls: seq<string>): (url: Option<string>)
    ensures url.Some? <==> |urls| > 0
    ensures url.Some? ==> url.value == urls[0]
  {
    if |urls| > 0 then Some(urls[0]) else None
  }

  /** `SERVER_NAME`: the URL after the first "://", computed by slicing from
      `find("://") + 3`; absent when the URL is absent or empty. */
  function ServerName(url: Option<string>): (name: Option<string>)
    ensures name.None? <==> !Truthy(url)
    ensures name.Some? ==> IsSuffix(name.value, url.value)
  {
    if Truthy(url) then Some(SliceFrom(url.value, Find(url.value, "://") + 3)) else None
  }

  /** With a scheme separator, the server name is everything after its first occurrence. */
  lemma ServerNameAfterScheme(url: string, i: int)
    requires OccursAt(url, "://", i)
    requires forall j :: 0 <= j < i ==> !OccursAt(url, "://", j)
    ensures ServerName(Some(url)) == Some(url[i + 3..])
  {
    var k := Find(url, "://");
    assert k != -1;
    assert !(k < i) && !(i < k);
  }

  /** Without a scheme separator, `find` gives -1, so the first two characters are dropped. */
  lemma ServerNameWithoutScheme(url: string)
    requires url != ""
    requires forall j :: !OccursAt(url, "://", j)
    ensures ServerName(Some(url)) == Some(if |url| <= 2 then "" else url[2..])
  {
  }

  /** The usual tunnel list: the host name of the first URL. */
  lemma ServerNameOfTunnel()
    ensures ServerName(ServerUrl(["https://abc.ngrok.io", "http://abc.ngrok.io"])) == Some("abc.ngrok.io")
  {
    var url := "https://abc.ngrok.io";
    assert OccursAt(url, "://", 5);
    forall j | 0 <= j < 5 ensures !OccursAt(url, "://", j) {
      assert url[j] != ':' && url[j..j + 3][0] == url[j];
    }
    ServerNameAfterScheme(url, 5);
    assert url[8..] == "abc.ngrok.io";
  }
}
