/** The request interceptor `AdBlocker`: a request is blocked when its URL,
    lower-cased, contains one of seven ad-domain fragments. */
module AdBlocking {
  import opened Text

  /** The fragments, in the order the interceptor tries them. */
  const AdDomains: seq<string> :=
    ["ads.", "doubleclick.", "advertising.", "banners.", "analytics.", "trackers.", "pixel."]

  /** `any(f in s for f in frags)`, tried left to right. */
  function AnyIn(s: string, frags: seq<string>): bool
    decreases |frags|
  {
    |frags| > 0 && (Contains(s, frags[0]) || AnyIn(s, frags[1..]))
  }

  lemma {:induction false} AnyInIff(s: string, frags: seq<string>)
    ensures AnyIn(s, frags) <==> exists k :: 0 <= k < |frags| && Contains(s, frags[k])
    decreases |frags|
  {
    if |frags| > 0 {
      AnyInIff(s, frags[1..]);
      if k :| 1 <= k < |frags| && Contains(s, frags[k]) {
        assert frags[1..][k - 1] == frags[k];
      }
    }
  }

  /** `interceptRequest` calls `info.block(True)` exactly when this holds. */
  predicate Blocks(url: string) {
    AnyIn(Lower(url), AdDomains)
  }

  /** A request is blocked if and only if some ad fragment occurs somewhere
      in its lower-cased URL. */
  lemma BlocksIff(url: string)
    ensures Blocks(url) <==>
      exists k, i :: 0 <= k < |AdDomains| && OccursAt(Lower(url), AdDomains[k], i)
  {
    var s := Lower(url);
    AnyInIff(s, AdDomains);
    forall k | 0 <= k < |AdDomains|
      ensures Contains(s, AdDomains[k]) <==> exists i :: OccursAt(s, AdDomains[k], i)
    {
      ContainsIffOccurs(s, AdDomains[k]);
    }
  }

  /** Matching ignores case: a URL is blocked exactly when its lower-cased
      form is. */
  lemma BlocksIgnoresCase(url: string)
    ensures Blocks(url) == Blocks(Lower(url))
  {
    LowerFolds(url);
  }

  /** An upper-case ad host is blocked. */
  lemma UpperCaseAdHostBlocked()
    ensures Blocks("http://ADS.x")
  {
    var s := Lower("http://ADS.x");
    assert s[7..11] == "ads.";
    assert OccursAt(s, AdDomains[0], 7);
    BlocksIff("http://ADS.x");
  }

  /** Matching is on substrings, not on host names: `uploads.` ends in
      `ads.`, so a request to an upload host is blocked too. */
  lemma UploadHostBlocked()
    ensures Blocks("http://uploads.x")
  {
    var s := Lower("http://uploads.x");
    assert s[11..15] == "ads.";
    assert OccursAt(s, AdDomains[0], 11);
    BlocksIff("http://uploads.x");
  }
}
