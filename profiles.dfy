/** Engine settings and the performance profiles: the named four-flag
    bundles, and what applying a bundle or flipping a memory-manager toggle
    writes into the engine's flag map. */
module Performance {

  /** The engine attributes the browser writes. */
  datatype Flag =
    | WebGL | Javascript | AutoLoadImages | ScrollAnimator | JavascriptCanOpenWindows
    | Plugins | DnsPrefetch | PlaybackRequiresUserGesture | FullScreenSupport
    | LocalStorage | ShowScrollBars

  /** One profile: values for WebGL, JavaScript, image loading and the
      scroll animator. */
  datatype Profile = Profile(webgl: bool, javascript: bool, images: bool, animations: bool)

  /** The three built-in profiles. */
  function DefaultProfiles(): map<string, Profile> {
    map[
      "balanced" := Profile(true, true, true, true),
      "performance" := Profile(false, true, true, false),
      "minimal" := Profile(false, false, false, false)
    ]
  }

  /** The flags written at start-up, in order; WebGL is written twice and
      ends up off. A flag never written keeps the engine's default and is
      absent here. */
  function InitialFlags(): map<Flag, bool> {
    map[][Plugins := true][DnsPrefetch := true][PlaybackRequiresUserGesture := false]
      [FullScreenSupport := true][Javascript := true][WebGL := true][LocalStorage := true]
      [ShowScrollBars := true][WebGL := false][AutoLoadImages := true]
      [JavascriptCanOpenWindows := false]
  }

  /** The four flags a profile controls. */
  function ProfileFlags(): set<Flag> {
    {WebGL, Javascript, AutoLoadImages, ScrollAnimator}
  }

  /** The four writes of profile `p`. */
  function ProfileWrites(p: Profile): map<Flag, bool> {
    map[WebGL := p.webgl, Javascript := p.javascript, AutoLoadImages := p.images,
        ScrollAnimator := p.animations]
  }

  /** The flag map after `apply_performance_profile` writes profile `p`. */
  function WithProfile(flags: map<Flag, bool>, p: Profile): map<Flag, bool> {
    flags + ProfileWrites(p)
  }

  /** Applying a profile sets exactly its four flags to its values and
      leaves every other flag as it was. */
  lemma WithProfileIsExact(flags: map<Flag, bool>, p: Profile)
    ensures WithProfile(flags, p).Keys == flags.Keys + ProfileFlags()
    ensures WithProfile(flags, p)[WebGL] == p.webgl && WithProfile(flags, p)[Javascript] == p.javascript
    ensures WithProfile(flags, p)[AutoLoadImages] == p.images && WithProfile(flags, p)[ScrollAnimator] == p.animations
    ensures forall f :: f in flags && f !in ProfileFlags() ==> WithProfile(flags, p)[f] == flags[f]
  {
  }

  /** The last profile applied decides the four flags alone: what an
      earlier profile wrote leaves no trace. */
  lemma LastProfileWins(flags: map<Flag, bool>, p: Profile, q: Profile)
    ensures WithProfile(WithProfile(flags, p), q) == WithProfile(flags, q)
  {
    assert ProfileWrites(p).Keys == ProfileFlags() == ProfileWrites(q).Keys;
    OverwrittenUnion(flags, ProfileWrites(p), ProfileWrites(q));
  }

  /** A union whose keys cover an earlier one hides it completely. */
  lemma OverwrittenUnion<K, V>(m: map<K, V>, a: map<K, V>, b: map<K, V>)
    requires a.Keys <= b.Keys
    ensures (m + a) + b == m + b
  {
  }

  /** The three built-in profiles, and `minimal` turns all four flags off. */
  lemma DefaultProfilesTable(flags: map<Flag, bool>)
    ensures DefaultProfiles().Keys == {"balanced", "performance", "minimal"}
    ensures var m := WithProfile(flags, DefaultProfiles()["minimal"]);
      !m[WebGL] && !m[Javascript] && !m[AutoLoadImages] && !m[ScrollAnimator]
    ensures var b := WithProfile(flags, DefaultProfiles()["balanced"]);
      b[WebGL] && b[Javascript] && b[AutoLoadImages] && b[ScrollAnimator]
  {
  }

  /** A check-box state as PyQt passes it: 0 unchecked, 2 checked; Python
      reads any non-zero value as true. */
  predicate Checked(state: int) {
    state != 0
  }

  /** `toggle_performance_mode`: performance mode on turns WebGL, scripted
      pop-ups and the scroll animator off, and off turns them on. */
  function WithPerformanceMode(flags: map<Flag, bool>, state: int): (r: map<Flag, bool>)
    ensures r.Keys == flags.Keys + {WebGL, JavascriptCanOpenWindows, ScrollAnimator}
    ensures forall f :: f in {WebGL, JavascriptCanOpenWindows, ScrollAnimator} ==> r[f] == !Checked(state)
    ensures forall f :: f in flags && f !in {WebGL, JavascriptCanOpenWindows, ScrollAnimator} ==> r[f] == flags[f]
  {
    flags[WebGL := !Checked(state)][JavascriptCanOpenWindows := !Checked(state)]
      [ScrollAnimator := !Checked(state)]
  }

  /** `toggle_image_loading`: images load exactly when the box is checked. */
  function WithImageLoading(flags: map<Flag, bool>, state: int): (r: map<Flag, bool>)
    ensures r.Keys == flags.Keys + {AutoLoadImages}
    ensures r[AutoLoadImages] == Checked(state)
    ensures forall f :: f in flags && f != AutoLoadImages ==> r[f] == flags[f]
  {
    flags[AutoLoadImages := Checked(state)]
  }
}
