/** The profile page: fetching the signed-in user's profile, choosing what to
    render from the loading/error/profile state, and the avatar picked from
    the e-mail address. */
module Profile {
  import opened Common

  /** A UTF-16 code unit: what `charCodeAt` returns for one element of a
      JavaScript string. */
  newtype CodeUnit = c: int | 0 <= c < 0x1_0000

  /** The body of GET /auth/profile. */
  datatype ProfileData = ProfileData(
    userId: string,
    tenantId: string,
    role: string,
    email: seq<CodeUnit>,
    tenantIds: seq<string>)

  /** The component's three state variables. */
  datatype ProfileState = ProfileState(profile: Option<ProfileData>, loading: bool, error: Option<string>)

  /** State on mount: no profile, loading, no error. */
  const Initial := ProfileState(None, true, None)

  const TokenMissing := "Access token not found"
  const FetchFailed := "Failed to fetch profile"
  const DefaultError := "An error occurred"

  /** How the profile request ends: a 2xx response with a profile body, a
      2xx response whose body is `null`, a response that is not OK, or a
      rejection (network failure, unreadable body) with the error's message. */
  datatype FetchOutcome = Fetched(data: ProfileData) | FetchedNull | NotOk | Rejected(message: string)

  /** `if (error)`: a string error is shown unless it is null or empty. */
  predicate Shown(error: Option<string>)
  {
    error.Some? && error.value != ""
  }

  // ---------------------------------------------------------------------------
  // fetchProfile
  // ---------------------------------------------------------------------------

  /** fetchProfile up to its first await. The result is the new state and
      whether the profile request was sent. Without a token it records the
      error, stops loading and sends nothing; with one it (re)enters loading. */
  function StartFetch(s: ProfileState, tokenPresent: bool): (r: (ProfileState, bool))
    ensures r.1 <==> tokenPresent
    ensures r.0.profile == s.profile
    ensures !tokenPresent ==> !r.0.loading && r.0.error == Some(TokenMissing)
    ensures tokenPresent ==> r.0.loading && r.0.error == s.error
  {
    if !tokenPresent then
      (s.(error := Some(TokenMissing), loading := false), false)
    else
      (s.(loading := true), true)
  }

  /** The continuation of fetchProfile once the request settles. Loading
      always ends; whatever body an OK response has is stored as the
      profile, every failure leaves a visible error and keeps the previous
      profile. */
  function FetchSettled(s: ProfileState, outcome: FetchOutcome): (r: ProfileState)
    ensures !r.loading
    ensures outcome.Fetched? ==> r.profile == Some(outcome.data) && r.error == s.error
    ensures outcome.FetchedNull? ==> r.profile == None && r.error == s.error
    ensures outcome.NotOk? || outcome.Rejected? ==> r.profile == s.profile && Shown(r.error)
    ensures outcome.NotOk? ==> r.error == Some(FetchFailed)
    ensures outcome.Rejected? && outcome.message != "" ==> r.error == Some(outcome.message)
    ensures outcome.Rejected? && outcome.message == "" ==> r.error == Some(DefaultError)
  {
    match outcome
    case Fetched(data) => s.(profile := Some(data), loading := false)
    case FetchedNull => s.(profile := None, loading := false)
    case NotOk => s.(error := Some(FetchFailed), loading := false)
    case Rejected(message) =>
      s.(error := Some(if message != "" then message else DefaultError), loading := false)
  }

  // ---------------------------------------------------------------------------
  // Rendering
  // ---------------------------------------------------------------------------

  /** What the page shows. */
  datatype View = LoadingView | ErrorView(message: string) | NoProfileView | ProfileView(email: seq<CodeUnit>, avatar: int)

  /** Loading wins over an error, an error over a missing profile, and only
      then is the profile card shown, with its avatar index. */
  function Render(s: ProfileState): (v: View)
    ensures v.LoadingView? <==> s.loading
    ensures v.ErrorView? <==> !s.loading && Shown(s.error)
    ensures v.ErrorView? ==> Some(v.message) == s.error
    ensures v.NoProfileView? <==> !s.loading && !Shown(s.error) && s.profile.None?
    ensures v.ProfileView? <==> !s.loading && !Shown(s.error) && s.profile.Some?
    ensures v.ProfileView? ==> v.email == s.profile.value.email && 1 <= v.avatar <= 50
  {
    if s.loading then LoadingView
    else if Shown(s.error) then ErrorView(s.error.value)
    else if s.profile.None? then NoProfileView
    else ProfileView(s.profile.value.email, AvatarIndex(s.profile.value.email))
  }

  /** Mounting without a token ends on the error view and sends no request. */
  lemma NoTokenShowsError()
    ensures !StartFetch(Initial, false).1
    ensures Render(StartFetch(Initial, false).0) == ErrorView(TokenMissing)
  {
  }

  /** Mounting with a token and letting the request settle never leaves the
      page loading: it shows the fetched profile, "No profile data" for a
      `null` body, or the failure. */
  lemma SettledFetchView(outcome: FetchOutcome)
    ensures StartFetch(Initial, true).1
    ensures var v := Render(FetchSettled(StartFetch(Initial, true).0, outcome));
      && (outcome.Fetched? <==> v.ProfileView?)
      && (outcome.Fetched? ==> v == ProfileView(outcome.data.email, AvatarIndex(outcome.data.email)))
      && (outcome.FetchedNull? <==> v == NoProfileView)
      && (outcome.NotOk? || outcome.Rejected? <==> v.ErrorView?)
  {
  }

  // ---------------------------------------------------------------------------
  // Avatar index
  // ---------------------------------------------------------------------------

  /** `email.split('').reduce((a, b) => a + b.charCodeAt(0), 0)`: a left fold
      over the code units, starting from 0. */
  function CodeUnitSum(s: seq<CodeUnit>): (r: nat)
    ensures r <= 0xFFFF * |s|
  {
    if s == [] then 0 else CodeUnitSum(s[..|s| - 1]) + s[|s| - 1] as int
  }

  /** The pravatar image number: the code-unit sum reduced modulo 50, shifted
      into 1..50. */
  function AvatarIndex(email: seq<CodeUnit>): (r: int)
    ensures 1 <= r <= 50
    ensures (CodeUnitSum(email) - (r - 1)) % 50 == 0
  {
    CodeUnitSum(email) % 50 + 1
  }

  /** The fold starts from 0, so the empty address gets image 1. */
  lemma AvatarOfEmpty()
    ensures AvatarIndex([]) == 1
  {
  }

  lemma {:induction false} SumAppend(a: seq<CodeUnit>, b: seq<CodeUnit>)
    ensures CodeUnitSum(a + b) == CodeUnitSum(a) + CodeUnitSum(b)
  {
    if b == [] {
      assert a + b == a;
    } else {
      assert (a + b)[..|a + b| - 1] == a + b[..|b| - 1];
      SumAppend(a, b[..|b| - 1]);
    }
  }

  /** Taking one code unit out of the address lowers the sum by exactly it. */
  lemma {:induction false} SumRemoveAt(t: seq<CodeUnit>, j: nat)
    requires j < |t|
    ensures CodeUnitSum(t) == CodeUnitSum(t[..j] + t[j + 1..]) + t[j] as int
  {
    var a, x, b := t[..j], t[j], t[j + 1..];
    assert t == (a + [x]) + b;
    SumAppend(a + [x], b);
    SumAppend(a, [x]);
    SumAppend(a, b);
    assert [x][..0] == [];
  }

  /** The sum depends only on which code units occur, and how often. */
  lemma {:induction false} SumPermutation(s: seq<CodeUnit>, t: seq<CodeUnit>)
    requires multiset(s) == multiset(t)
    ensures CodeUnitSum(s) == CodeUnitSum(t)
  {
    if s == [] {
      assert |t| == |multiset(t)| == 0;
    } else {
      var n := |s| - 1;
      var x := s[n];
      assert s == s[..n] + [x];
      assert x in multiset(t);
      var j :| 0 <= j < |t| && t[j] == x;
      var rest := t[..j] + t[j + 1..];
      assert t == t[..j] + [x] + t[j + 1..];
      assert multiset(rest) == multiset(t) - multiset{x};
      assert multiset(s[..n]) == multiset(s) - multiset{x};
      SumPermutation(s[..n], rest);
      SumRemoveAt(t, j);
    }
  }

  /** Any rearrangement of the address's characters gets the same avatar. */
  lemma AvatarPermutation(s: seq<CodeUnit>, t: seq<CodeUnit>)
    requires multiset(s) == multiset(t)
    ensures AvatarIndex(s) == AvatarIndex(t)
  {
    SumPermutation(s, t);
  }
}
