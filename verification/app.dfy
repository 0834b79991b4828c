/**
 * The application shell: the image selection toggle, the logged-in state with
 * its persisted session, the image search state around the fetch, and the
 * guards on the login and dashboard routes.
 */
module App {
  import opened Wrappers
  import Server

  // ---------------------------------------------------------------------------
  // Selection toggle
  // ---------------------------------------------------------------------------

  /** `s.filter(y => y !== x)`: every occurrence of `x` removed, the rest in order. */
  function Without(s: seq<string>, x: string): (r: seq<string>)
    ensures forall y :: y in r <==> y in s && y != x
    ensures |r| <= |s|
    ensures x !in s ==> r == s
  {
    if s == [] then [] else (if s[0] == x then [] else [s[0]]) + Without(s[1..], x)
  }

  /** `handleToggleSelection(id)` applied to the previous selection. */
  function Toggle(selected: seq<string>, id: string): (r: seq<string>)
    ensures id in selected ==> id !in r && forall y :: y != id ==> (y in r <==> y in selected)
    ensures id !in selected ==> r == selected + [id]
  {
    if id in selected then Without(selected, id) else selected + [id]
  }

  /** Filtering distributes over concatenation, so the kept ids stay in their order. */
  lemma {:induction false} WithoutConcat(a: seq<string>, b: seq<string>, x: string)
    ensures Without(a + b, x) == Without(a, x) + Without(b, x)
  {
    if a == [] {
      assert a + b == b;
    } else {
      assert (a + b)[1..] == a[1..] + b;
      WithoutConcat(a[1..], b, x);
    }
  }

  /** No id occurs twice. */
  predicate Distinct(s: seq<string>)
  {
    forall i, j :: 0 <= i < |s| && 0 <= j < |s| && i != j ==> s[i] != s[j]
  }

  /** Filtering keeps a list free of duplicates. */
  lemma {:induction false} WithoutKeepsDistinct(s: seq<string>, x: string)
    requires Distinct(s)
    ensures Distinct(Without(s, x))
  {
    if s != [] {
      WithoutKeepsDistinct(s[1..], x);
      var rest := Without(s[1..], x);
      assert s[0] !in s[1..] by {
        forall k | 0 <= k < |s[1..]| ensures s[1..][k] != s[0] {
          assert s[1..][k] == s[k + 1];
        }
      }
      assert s[0] !in rest;
    }
  }

  /** Toggling an absent id twice gives back the original selection. */
  lemma ToggleTwice(selected: seq<string>, id: string)
    requires id !in selected
    ensures Toggle(Toggle(selected, id), id) == selected
  {
    WithoutConcat(selected, [id], id);
    assert Without([id], id) == [];
  }

  /** A toggle keeps the selection free of duplicates. */
  lemma ToggleKeepsDistinct(selected: seq<string>, id: string)
    requires Distinct(selected)
    ensures Distinct(Toggle(selected, id))
  {
    if id in selected {
      WithoutKeepsDistinct(selected, id);
    }
  }

  /** The selection after clicking the ids of `clicks` in turn. */
  function ApplyToggles(selected: seq<string>, clicks: seq<string>): seq<string>
    decreases |clicks|
  {
    if clicks == [] then selected else ApplyToggles(Toggle(selected, clicks[0]), clicks[1..])
  }

  /** A selection built only by toggles, starting from none, never holds an id twice. */
  lemma {:induction false} TogglesKeepDistinct(selected: seq<string>, clicks: seq<string>)
    requires Distinct(selected)
    ensures Distinct(ApplyToggles(selected, clicks))
    decreases |clicks|
  {
    if clicks != [] {
      ToggleKeepsDistinct(selected, clicks[0]);
      TogglesKeepDistinct(Toggle(selected, clicks[0]), clicks[1..]);
    }
  }

  // ---------------------------------------------------------------------------
  // Route guards
  // ---------------------------------------------------------------------------

  /** The routed paths: "/", "/OAuth" and "/dashboard". */
  datatype Path = Home | LoginPath | DashboardPath

  /** What a route renders: a page, or a redirect to another path. */
  datatype View = ImageResultsView | LoginView | DashboardView | Navigate(to: Path)

  /** The element each route renders for the current logged-in flag. */
  function Route(path: Path, isLoggedIn: bool): (v: View)
    ensures path == Home ==> v == ImageResultsView
    ensures path == LoginPath ==> (v == LoginView <==> !isLoggedIn) && (v == Navigate(DashboardPath) <==> isLoggedIn)
    ensures path == DashboardPath ==> (v == DashboardView <==> isLoggedIn) && (v == Navigate(LoginPath) <==> !isLoggedIn)
  {
    match path
    case Home => ImageResultsView
    case LoginPath => if isLoggedIn then Navigate(DashboardPath) else LoginView
    case DashboardPath => if isLoggedIn then DashboardView else Navigate(LoginPath)
  }

  /** A redirect always lands on a route that renders a page, so the guards never loop. */
  lemma RedirectSettles(path: Path, isLoggedIn: bool)
    ensures Route(path, isLoggedIn).Navigate? ==> !Route(Route(path, isLoggedIn).to, isLoggedIn).Navigate?
  {
  }

  // ---------------------------------------------------------------------------
  // Persisted session
  // ---------------------------------------------------------------------------

  /**
   * An entry of browser storage. The user is stored as JSON and parsed back;
   * that round trip is the identity here.
   */
  datatype Stored = TokenItem(token: Server.Token) | UserItem(user: Server.UserInfo)

  const TokenKey := "token"
  const UserKey := "user"

  /** The storage after `handleLogin` wrote both keys. */
  function SaveSession(storage: map<string, Stored>, token: Server.Token, user: Server.UserInfo): map<string, Stored>
  {
    storage[TokenKey := TokenItem(token)][UserKey := UserItem(user)]
  }

  /** The storage after `handleLogout` removed both keys. */
  function ClearSession(storage: map<string, Stored>): map<string, Stored>
  {
    storage - {TokenKey, UserKey}
  }

  /** The user the startup effect restores: only when both keys are stored. */
  function RestoredUser(storage: map<string, Stored>): Option<Server.UserInfo>
  {
    if TokenKey in storage && UserKey in storage && storage[UserKey].UserItem? then Some(storage[UserKey].user)
    else None
  }

  /** With either key missing the app starts logged out. */
  lemma RestoreNeedsBothKeys(storage: map<string, Stored>)
    requires TokenKey !in storage || UserKey !in storage
    ensures RestoredUser(storage) == None
  {
  }

  /** A saved session is restored on the next start with the same user. */
  lemma RestoreAfterLogin(storage: map<string, Stored>, token: Server.Token, user: Server.UserInfo)
    ensures RestoredUser(SaveSession(storage, token, user)) == Some(user)
  {
  }

  /** Logging in and then out leaves nothing of the session stored; other keys are untouched. */
  lemma LogoutUndoesLogin(storage: map<string, Stored>, token: Server.Token, user: Server.UserInfo)
    ensures ClearSession(SaveSession(storage, token, user)) == ClearSession(storage)
    ensures TokenKey !in ClearSession(storage) && UserKey !in ClearSession(storage)
    ensures RestoredUser(ClearSession(storage)) == None
    ensures forall k :: k != TokenKey && k != UserKey ==> (k in ClearSession(storage) <==> k in storage)
  {
    assert ClearSession(SaveSession(storage, token, user)).Keys == ClearSession(storage).Keys;
  }

  // ---------------------------------------------------------------------------
  // Search text
  // ---------------------------------------------------------------------------

  /** The characters `String.prototype.trim` removes: white space and line terminators. */
  predicate IsWhitespace(c: char)
  {
    c == '\U{0009}' || c == '\U{000A}' || c == '\U{000B}' || c == '\U{000C}' || c == '\U{000D}' ||
    c == '\U{0020}' || c == '\U{00A0}' || c == '\U{1680}' || ('\U{2000}' <= c <= '\U{200A}') ||
    c == '\U{2028}' || c == '\U{2029}' || c == '\U{202F}' || c == '\U{205F}' || c == '\U{3000}' ||
    c == '\U{FEFF}'
  }

  predicate AllWhitespace(s: string)
  {
    forall i :: 0 <= i < |s| ==> IsWhitespace(s[i])
  }

  /** `s` without its leading white space. */
  function TrimStart(s: string): (r: string)
    ensures |r| <= |s| && r == s[|s| - |r|..]
    ensures AllWhitespace(s[..|s| - |r|])
    ensures r == [] || !IsWhitespace(r[0])
  {
    if s != [] && IsWhitespace(s[0]) then TrimStart(s[1..]) else s
  }

  /** `s` without its trailing white space. */
  function TrimEnd(s: string): (r: string)
    ensures |r| <= |s| && r == s[..|r|]
    ensures AllWhitespace(s[|r|..])
    ensures r == [] || !IsWhitespace(r[|r| - 1])
  {
    if s != [] && IsWhitespace(s[|s| - 1]) then TrimEnd(s[..|s| - 1]) else s
  }

  /** `s.trim()`. */
  function Trim(s: string): string
  {
    TrimEnd(TrimStart(s))
  }

  /** The trimmed term is empty exactly when the term is all white space. */
  lemma TrimEmptyIffBlank(s: string)
    ensures Trim(s) == "" <==> AllWhitespace(s)
  {
    var a := TrimStart(s);
    if Trim(s) == "" {
      assert AllWhitespace(a[0..]);
      assert s == s[..|s| - |a|] + a;
    }
  }

  /** The decimal rendering of a count in a template string. */
  function NatToString(n: nat): (s: string)
    ensures |s| > 0 && forall i :: 0 <= i < |s| ==> '0' <= s[i] <= '9'
    ensures |s| > 1 ==> s[0] != '0'
  {
    if n < 10 then [('0' as int + n) as char] else NatToString(n / 10) + [('0' as int + n % 10) as char]
  }

  /** The number a string of decimal digits denotes. */
  function DigitsValue(s: string): nat
    requires forall i :: 0 <= i < |s| ==> '0' <= s[i] <= '9'
  {
    if s == [] then 0 else DigitsValue(s[..|s| - 1]) * 10 + (s[|s| - 1] as int - '0' as int)
  }

  /** The rendered count reads back as the count. */
  lemma {:induction false} NatToStringValue(n: nat)
    ensures DigitsValue(NatToString(n)) == n
  {
    if n >= 10 {
      NatToStringValue(n / 10);
      var s := NatToString(n);
      assert s[..|s| - 1] == NatToString(n / 10);
    }
  }

  // ---------------------------------------------------------------------------
  // Search state around the fetch
  // ---------------------------------------------------------------------------

  const InitialStatus := "Search for images to begin."
  const FailedStatus := "Failed to load results."

  function LoadingStatus(term: string): string
  {
    "Loading images for '" + term + "'..."
  }

  /** The status line after a fetch that returned `count` photos. */
  function ResultStatus(term: string, count: nat): string
  {
    if count == 0 then "No images found for '" + term + "'. Try another search."
    else "You searched for '" + term + "' -- " + NatToString(count) + " results."
  }

  /** An image found by the search, by id. */
  type Photo = string

  /** What the fetch produced: an HTTP answer with its status and photos, or a thrown error. */
  datatype FetchOutcome = Answered(status: nat, photos: seq<Photo>) | Threw(message: string)

  predicate Ok(outcome: FetchOutcome)
  {
    outcome.Answered? && 200 <= outcome.status <= 299
  }

  /** The message of the error the search catches. */
  function FetchErrorMessage(outcome: FetchOutcome): string
  {
    match outcome
    case Threw(message) => message
    case Answered(status, _) =>
      if status == 401 then "Unauthorized: Check your Unsplash API key."
      else "HTTP error! status: " + NatToString(status)
  }

  // ---------------------------------------------------------------------------
  // The component state
  // ---------------------------------------------------------------------------

  class AppState {
    var isLoggedIn: bool
    var user: Option<Server.UserInfo>
    var storage: map<string, Stored>
    var searchTerm: string
    var results: seq<Photo>
    var isSearchLoading: bool
    var error: Option<string>
    var searchStatus: string
    var selectedImages: seq<string>

    /** Mounting the app: the initial state, then the startup effect that restores a stored session. */
    constructor (saved: map<string, Stored>)
      ensures storage == saved
      ensures isLoggedIn <==> RestoredUser(saved).Some?
      ensures user == RestoredUser(saved)
      ensures searchTerm == "" && results == [] && !isSearchLoading && error == None
      ensures searchStatus == InitialStatus && selectedImages == []
    {
      isLoggedIn := false;
      user := None;
      storage := saved;
      searchTerm := "";
      results := [];
      isSearchLoading := false;
      error := None;
      searchStatus := InitialStatus;
      selectedImages := [];
      if TokenKey in saved && UserKey in saved {
        match saved[UserKey]
        case UserItem(u) =>
          isLoggedIn := true;
          user := Some(u);
        case TokenItem(_) =>
      }
    }

    /** `handleLogin(token, userData)`. */
    method Login(token: Server.Token, userData: Server.UserInfo)
      modifies this`storage, this`isLoggedIn, this`user
      ensures storage == SaveSession(old(storage), token, userData)
      ensures isLoggedIn && user == Some(userData)
    {
      storage := storage[TokenKey := TokenItem(token)];
      storage := storage[UserKey := UserItem(userData)];
      isLoggedIn := true;
      user := Some(userData);
    }

    /** `handleLogout()`. */
    method Logout()
      modifies this`storage, this`isLoggedIn, this`user
      ensures storage == ClearSession(old(storage))
      ensures !isLoggedIn && user == None
    {
      storage := storage - {TokenKey};
      storage := storage - {UserKey};
      isLoggedIn := false;
      user := None;
    }

    /** The search box's `setSearchTerm`. */
    method SetSearchTerm(term: string)
      modifies this`searchTerm
      ensures searchTerm == term
    {
      searchTerm := term;
    }

    /**
     * `handleSearchSubmit` up to the fetch. A blank term changes nothing and
     * starts no fetch; otherwise the state is reset for loading and the
     * trimmed term the fetch is for is returned.
     */
    method SubmitSearch() returns (term: Option<string>)
      modifies this`isSearchLoading, this`error, this`results, this`selectedImages, this`searchStatus
      ensures AllWhitespace(searchTerm) <==> term.None?
      ensures term.None? ==>
        isSearchLoading == old(isSearchLoading) && error == old(error) && results == old(results) &&
        selectedImages == old(selectedImages) && searchStatus == old(searchStatus)
      ensures term.Some? ==>
        term.value == Trim(searchTerm) && isSearchLoading && error == None && results == [] &&
        selectedImages == [] && searchStatus == LoadingStatus(term.value)
    {
      TrimEmptyIffBlank(searchTerm);
      var t := Trim(searchTerm);
      if t == "" {
        return None;
      }
      isSearchLoading := true;
      error := None;
      results := [];
      selectedImages := [];
      searchStatus := LoadingStatus(t);
      return Some(t);
    }

    /**
     * The rest of `handleSearchSubmit` once the fetch for `term` is done:
     * loading stops either way; a successful answer sets the results and a
     * status that reports their number, anything else sets the error.
     */
    method CompleteSearch(term: string, outcome: FetchOutcome)
      modifies this`isSearchLoading, this`error, this`results, this`searchStatus
      ensures !isSearchLoading
      ensures Ok(outcome) ==>
        results == outcome.photos && error == old(error) && searchStatus == ResultStatus(term, |outcome.photos|)
      ensures !Ok(outcome) ==>
        results == old(results) && error == Some("Error loading images: " + FetchErrorMessage(outcome)) &&
        searchStatus == FailedStatus
    {
      if Ok(outcome) {
        results := outcome.photos;
        isSearchLoading := false;
        if |outcome.photos| == 0 {
          searchStatus := "No images found for '" + term + "'. Try another search.";
        } else {
          searchStatus := "You searched for '" + term + "' -- " + NatToString(|outcome.photos|) + " results.";
        }
      } else {
        error := Some("Error loading images: " + FetchErrorMessage(outcome));
        searchStatus := FailedStatus;
        isSearchLoading := false;
      }
    }

    /** `handleToggleSelection(id)`. */
    method ToggleSelection(id: string)
      modifies this`selectedImages
      ensures selectedImages == Toggle(old(selectedImages), id)
    {
      selectedImages := Toggle(selectedImages, id);
    }
  }
}
