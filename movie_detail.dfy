/** The rating editor of the movie page: the selected score, the comment
    and the edit mode, driven by the user's existing rating and by the
    edit, cancel, delete and submit handlers.

    A handler that starts a mutation is modelled together with the
    mutation's settling: `succeeded` says whether its onSuccess or its
    onError callback ran. The confirmation dialog's answer is the parameter
    `confirmed`. Mutations issued, pages navigated to and alerts shown are
    recorded in order. */
module MovieDetail {
  import opened Common
  import opened BrowserStorage
  import RatingsApi

  const LOGIN_ROUTE: string := "/login"
  const SELECT_RATING_ALERT: string := "Please select a rating"
  const DELETED_ALERT: string := "Rating deleted successfully!"
  const DELETE_FAILED_ALERT: string := "Failed to delete rating. Please try again."
  const UPDATED_ALERT: string := "Rating updated successfully!"
  const UPDATE_FAILED_ALERT: string := "Failed to update rating. Please try again."
  const SUBMITTED_ALERT: string := "Rating submitted successfully!"
  const SUBMIT_FAILED_ALERT: string := "Failed to submit rating. Please try again."

  // ---------------------------------------------------------------------------
  // parseInt
  // ---------------------------------------------------------------------------

  predicate IsDigit(c: char) { '0' <= c <= '9' }

  predicate IsHexDigit(c: char) { IsDigit(c) || 'a' <= c <= 'f' || 'A' <= c <= 'F' }

  /** A digit of radix 16 when hex holds, of radix 10 otherwise. */
  predicate IsRadixDigit(c: char, hex: bool) { if hex then IsHexDigit(c) else IsDigit(c) }

  function DigitOf(c: char): (v: nat)
    requires IsHexDigit(c)
    ensures v < 16
    ensures IsDigit(c) ==> v == c as int - '0' as int
  {
    if IsDigit(c) then c as int - '0' as int
    else if 'a' <= c <= 'f' then c as int - 'a' as int + 10
    else c as int - 'A' as int + 10
  }

  /** The longest prefix of s made of digits of the radix. */
  function DigitsPrefix(s: string, hex: bool): (d: string)
    ensures |d| <= |s| && d == s[..|d|]
    ensures forall i :: 0 <= i < |d| ==> IsRadixDigit(d[i], hex)
    ensures |d| < |s| ==> !IsRadixDigit(s[|d|], hex)
  {
    if s == [] || !IsRadixDigit(s[0], hex) then [] else [s[0]] + DigitsPrefix(s[1..], hex)
  }

  /** The value of a digit string in the radix, most significant digit first. */
  function DigitsValue(d: string, hex: bool): nat
    requires forall i :: 0 <= i < |d| ==> IsRadixDigit(d[i], hex)
  {
    if d == [] then 0
    else
      assert IsRadixDigit(d[|d| - 1], hex);
      DigitsValue(d[..|d| - 1], hex) * (if hex then 16 else 10) + DigitOf(d[|d| - 1])
  }

  /** Whether a string (after the sign) carries the 0x or 0X prefix that
      makes parseInt without a radix read base 16. */
  predicate HasHexPrefix(b: string) {
    |b| >= 2 && b[0] == '0' && (b[1] == 'x' || b[1] == 'X')
  }

  /** The unsigned part of parseInt: 0x or 0X and the longest run of
      hexadecimal digits, or else the longest run of decimal digits; None
      when there are no digits. */
  function ParseUnsigned(b: string): Option<nat> {
    var hex := HasHexPrefix(b);
    var d := DigitsPrefix(if hex then b[2..] else b, hex);
    if d == [] then None else Some(DigitsValue(d, hex))
  }

  /** parseInt on a string that starts with no white space: an optional
      sign, then the unsigned part. */
  function ParseSigned(t: string): Option<int> {
    if t != [] && (t[0] == '-' || t[0] == '+') then
      var u := ParseUnsigned(t[1..]);
      if u.None? then None
      else
        var v: int := u.value;
        Some(if t[0] == '-' then -v else v)
    else
      var u := ParseUnsigned(t);
      if u.None? then None else Some(u.value as int)
  }

  /** parseInt(s) without a radix: leading white space skipped, then an
      optional sign and the unsigned part; None stands for NaN. */
  function ParseInt(s: string): Option<int> {
    ParseSigned(TrimStart(s))
  }

  lemma {:induction false} NatToStringValue(n: nat)
    ensures DigitsValue(NatToString(n), false) == n
    decreases n
  {
    var s := NatToString(n);
    if n >= 10 {
      NatToStringValue(n / 10);
      assert s[..|s| - 1] == NatToString(n / 10);
      assert s[|s| - 1] == DigitChar(n % 10);
    }
    assert DigitChar(n % 10) as int - '0' as int == n % 10;
  }

  lemma DigitsPrefixOfDigits(s: string, hex: bool)
    requires forall i :: 0 <= i < |s| ==> IsRadixDigit(s[i], hex)
    ensures DigitsPrefix(s, hex) == s
  {
  }

  lemma ParseUnsignedDecimal(d: string)
    requires d != [] && forall i :: 0 <= i < |d| ==> IsDigit(d[i])
    ensures ParseUnsigned(d) == Some(DigitsValue(d, false))
  {
    assert !HasHexPrefix(d) by {
      if |d| >= 2 {
        assert IsDigit(d[1]);
      }
    }
    DigitsPrefixOfDigits(d, false);
  }

  lemma ParseIntOfUnpadded(s: string)
    requires s != [] && (s[0] == '-' || IsDigit(s[0]))
    ensures ParseInt(s) == ParseSigned(s)
  {
    TrimStartUnpadded(s);
  }

  lemma ParseSignedOfUnsigned(b: string, v: nat)
    requires b == [] || (b[0] != '-' && b[0] != '+')
    requires ParseUnsigned(b) == Some(v)
    ensures ParseSigned(b) == Some(v as int)
  {
  }

  lemma ParseSignedOfSign(c: char, b: string, v: nat)
    requires c == '-' || c == '+'
    requires ParseUnsigned(b) == Some(v)
    ensures ParseSigned([c] + b) == Some(if c == '-' then -(v as int) else v as int)
  {
    assert ([c] + b)[1..] == b;
  }

  /** A sign, or none, in front of an unsigned part that starts with no sign. */
  lemma ParseSignedOf(b: string, negative: bool, v: nat)
    requires b == [] || (b[0] != '-' && b[0] != '+')
    requires ParseUnsigned(b) == Some(v)
    ensures ParseSigned(if negative then ['-'] + b else b) == Some(if negative then -(v as int) else v as int)
  {
    if negative {
      ParseSignedOfSign('-', b, v);
    } else {
      ParseSignedOfUnsigned(b, v);
    }
  }

  /** parseInt reads back every integer's decimal rendering. */
  lemma ParseIntOfIntToString(n: int)
    ensures ParseInt(IntToString(n)) == Some(n)
  {
    var m: nat := if n < 0 then -n else n;
    var b := NatToString(m);
    NatToStringValue(m);
    ParseUnsignedDecimal(b);
    ParseIntOfSigned(b, n < 0, m);
    assert IntToString(n) == if n < 0 then ['-'] + b else b;
  }

  /** A route parameter with no leading digits is NaN. */
  lemma ParseIntNaN(s: string)
    requires var t := TrimStart(s); t == [] || (!IsDigit(t[0]) && t[0] != '-' && t[0] != '+')
    ensures ParseInt(s).None?
  {
  }

  lemma {:induction false} TrimStartSkipsWhitespace(w: string, s: string)
    requires forall i :: 0 <= i < |w| ==> IsWhitespace(w[i])
    ensures TrimStart(w + s) == TrimStart(s)
    decreases |w|
  {
    if w != [] {
      assert (w + s)[0] == w[0];
      assert (w + s)[1..] == w[1..] + s;
      TrimStartSkipsWhitespace(w[1..], s);
    } else {
      assert w + s == s;
    }
  }

  /** Leading white space, of any of the kinds trim() removes, does not
      change what parseInt reads. */
  lemma ParseIntSkipsLeadingWhitespace(w: string, s: string)
    requires forall i :: 0 <= i < |w| ==> IsWhitespace(w[i])
    ensures ParseInt(w + s) == ParseInt(s)
  {
    TrimStartSkipsWhitespace(w, s);
  }

  /** After a 0x or 0X prefix, the unsigned part is the hexadecimal digits
      that follow, read in base 16. */
  lemma ParseUnsignedHex(b: string)
    requires HasHexPrefix(b) && |b| > 2 && forall i :: 2 <= i < |b| ==> IsHexDigit(b[i])
    ensures ParseUnsigned(b) == Some(DigitsValue(b[2..], true))
  {
    DigitsPrefixOfDigits(b[2..], true);
  }

  /** parseInt of an optional minus sign and an unsigned part that starts
      with a digit is that part's value, negated after the sign. */
  lemma ParseIntOfSigned(b: string, negative: bool, v: nat)
    requires b != [] && IsDigit(b[0])
    requires ParseUnsigned(b) == Some(v)
    ensures ParseInt(if negative then ['-'] + b else b) == Some(if negative then -(v as int) else v as int)
  {
    ParseSignedOf(b, negative, v);
    ParseIntOfUnpadded(if negative then ['-'] + b else b);
  }

  // ---------------------------------------------------------------------------
  // The editor
  // ---------------------------------------------------------------------------

  /** The fields of the user's existing rating the editor reads. */
  datatype ExistingRating = ExistingRating(rating: Option<int>, score: Option<int>, comment: Option<string>)

  /** `r.rating || r.score || 0`. */
  function ShownScore(r: ExistingRating): int {
    if r.rating.Some? && r.rating.value != 0 then r.rating.value
    else if r.score.Some? && r.score.value != 0 then r.score.value
    else 0
  }

  /** `r.comment || ""`. */
  function ShownComment(r: ExistingRating): string {
    if r.comment.Some? then r.comment.value else ""
  }

  /** parseInt(id) as it reaches JSON: NaN is serialized as null. */
  function MovieIdJson(id: Option<int>): Json {
    if id.Some? then JNumber(id.value) else JNull
  }

  datatype Mutation =
    | SubmitRating(data: RatingsApi.RatingData)
    | UpdateRating(data: RatingsApi.RatingData)
    | DeleteRating(movieId: Option<int>)

  datatype EditorState = EditorState(
    selectedRating: int,
    comment: string,
    isEditing: bool,
    mutations: seq<Mutation>,
    navigations: seq<string>,
    alerts: seq<string>)

  /** The initial state of the page. */
  const INITIAL: EditorState := EditorState(0, "", false, [], [], [])

  /** The effect that runs when the existing rating loads or changes. */
  function OnExistingRating(st: EditorState, existing: Option<ExistingRating>): EditorState {
    if existing.Some? then st.(selectedRating := ShownScore(existing.value), comment := ShownComment(existing.value), isEditing := false)
    else st.(isEditing := true)
  }

  function OnCancel(st: EditorState, existing: Option<ExistingRating>): EditorState {
    if existing.Some? then st.(selectedRating := ShownScore(existing.value), comment := ShownComment(existing.value), isEditing := false)
    else st
  }

  /** The delete handler; movieId is parseInt of the route's id, as are all
      the movie ids below. */
  function OnDelete(st: EditorState, movieId: Option<int>, confirmed: bool, succeeded: bool): EditorState {
    if !confirmed then st else DeleteIssued(st, DeleteRating(movieId), succeeded)
  }

  /** The editor after the delete mutation `m` is issued and settles. */
  function DeleteIssued(st: EditorState, m: Mutation, succeeded: bool): EditorState {
    var issued := st.(mutations := st.mutations + [m]);
    if succeeded then issued.(alerts := st.alerts + [DELETED_ALERT], selectedRating := 0, comment := "", isEditing := true)
    else issued.(alerts := st.alerts + [DELETE_FAILED_ALERT])
  }

  /** The ratingData handleRatingSubmit builds. */
  function RatingDataOf(st: EditorState, movieId: Option<int>): RatingsApi.RatingData {
    RatingsApi.RatingData(MovieIdJson(movieId), Some(JNumber(st.selectedRating)), Some(Trim(st.comment)))
  }

  function OnSubmit(st: EditorState, authenticated: bool, movieId: Option<int>, existing: Option<ExistingRating>, succeeded: bool): EditorState {
    if !authenticated then st.(navigations := st.navigations + [LOGIN_ROUTE])
    else if st.selectedRating == 0 then st.(alerts := st.alerts + [SELECT_RATING_ALERT])
    else
      var data := RatingDataOf(st, movieId);
      if existing.Some? then
        st.(mutations := st.mutations + [UpdateRating(data)],
            alerts := st.alerts + [if succeeded then UPDATED_ALERT else UPDATE_FAILED_ALERT],
            isEditing := if succeeded then false else st.isEditing)
      else
        st.(mutations := st.mutations + [SubmitRating(data)],
            alerts := st.alerts + [if succeeded then SUBMITTED_ALERT else SUBMIT_FAILED_ALERT],
            isEditing := if succeeded then false else st.isEditing)
  }

  /** The submit button's disabled attribute; pending is any of the three
      mutations in flight. */
  predicate SubmitDisabled(selectedRating: int, submitting: bool, updating: bool, deleting: bool) {
    selectedRating == 0 || submitting || updating || deleting
  }

  /** Which parts of the rating section render. */
  datatype RatingSection = RatingSection(title: string, editAndDeleteButtons: bool, readOnlyView: bool, editForm: bool, loginPrompt: bool)

  function Section(st: EditorState, authenticated: bool, existing: Option<ExistingRating>): RatingSection {
    RatingSection(if existing.Some? then "Your Rating" else "Rate this Movie",
                  existing.Some? && !st.isEditing && authenticated,
                  existing.Some? && !st.isEditing && authenticated,
                  st.isEditing && authenticated,
                  !authenticated)
  }

  // ---------------------------------------------------------------------------
  // Properties
  // ---------------------------------------------------------------------------

  /** Loading the existing rating touches only the editor: it issues no
      mutation, alert or navigation, loading the same rating again changes
      nothing more, and afterwards a signed-in user sees the stored rating
      read-only, or the edit form when there is none. */
  lemma ExistingRatingLoads(st: EditorState, existing: Option<ExistingRating>)
    ensures var n := OnExistingRating(st, existing);
      && n.mutations == st.mutations && n.alerts == st.alerts && n.navigations == st.navigations
      && OnExistingRating(n, existing) == n
      && (existing.Some? ==> Section(n, true, existing).readOnlyView && !Section(n, true, existing).editForm)
      && (existing.None? ==> Section(n, true, existing).editForm && !Section(n, true, existing).readOnlyView)
  {
  }

  /** Cancel puts back the stored values and leaves edit mode when a rating
      exists, and does nothing otherwise. */
  lemma CancelRestores(st: EditorState, existing: Option<ExistingRating>)
    ensures existing.Some? ==> OnCancel(st, existing) == OnExistingRating(st, existing)
    ensures existing.None? ==> OnCancel(st, existing) == st
  {
  }

  /** What a submit leaves behind: a mutation exactly when the user is signed
      in and has chosen a score, a navigation to the login page exactly when
      signed out, and an alert exactly when signed in; the logs only grow.
      A refused submit changes no editor field. */
  lemma SubmitEffectsCounted(st: EditorState, authenticated: bool, movieId: Option<int>, existing: Option<ExistingRating>, succeeded: bool)
    ensures var n := OnSubmit(st, authenticated, movieId, existing, succeeded);
      && |n.mutations| == |st.mutations| + (if authenticated && st.selectedRating != 0 then 1 else 0)
      && n.mutations[..|st.mutations|] == st.mutations
      && n.navigations == st.navigations + (if authenticated then [] else [LOGIN_ROUTE])
      && |n.alerts| == |st.alerts| + (if authenticated then 1 else 0)
      && n.alerts[..|st.alerts|] == st.alerts
      && (!authenticated || st.selectedRating == 0 ==>
            n.selectedRating == st.selectedRating && n.comment == st.comment && n.isEditing == st.isEditing)
  {
    var n := OnSubmit(st, authenticated, movieId, existing, succeeded);
    assert n.mutations[..|st.mutations|] == st.mutations;
    assert n.alerts[..|st.alerts|] == st.alerts;
  }

  /** A signed-in submit with a score issues exactly one mutation: an update
      when a rating exists, a create otherwise, carrying the movie id, the
      score and the trimmed comment; success leaves edit mode. */
  lemma SubmitIssuesOneMutation(st: EditorState, movieId: Option<int>, existing: Option<ExistingRating>, succeeded: bool)
    requires st.selectedRating != 0
    ensures var n := OnSubmit(st, true, movieId, existing, succeeded);
      && |n.mutations| == |st.mutations| + 1 && n.mutations[..|st.mutations|] == st.mutations
      && (n.mutations[|st.mutations|].UpdateRating? <==> existing.Some?)
      && (n.mutations[|st.mutations|].SubmitRating? <==> existing.None?)
      && n.mutations[|st.mutations|].data == RatingsApi.RatingData(MovieIdJson(movieId), Some(JNumber(st.selectedRating)), Some(Trim(st.comment)))
      && (succeeded ==> !n.isEditing)
      && n.selectedRating == st.selectedRating && n.comment == st.comment
  {
    var n := OnSubmit(st, true, movieId, existing, succeeded);
    assert n.mutations[..|st.mutations|] == st.mutations;
  }

  /** The request a submit sends: the movie id, the selected score and the
      trimmed comment, an empty comment becoming "". */
  lemma SubmitPayload(st: EditorState, n: int, idText: string)
    requires idText == IntToString(n)
    ensures RatingsApi.PayloadOf(RatingDataOf(st, ParseInt(idText)))
      == RatingsApi.RatingPayload(JNumber(n), Some(JNumber(st.selectedRating)), Trim(st.comment))
  {
    ParseIntOfIntToString(n);
  }

  /** A delete issues its one DeleteRating exactly when confirmed; a
      successful one clears the score, so an immediate resubmit is refused
      with the select-a-rating alert and issues nothing; a failed one keeps
      the editor as it was. */
  lemma DeleteResets(st: EditorState, movieId: Option<int>, confirmed: bool, succeeded: bool)
    ensures var n := OnDelete(st, movieId, confirmed, succeeded);
      && n.mutations == st.mutations + (if confirmed then [DeleteRating(movieId)] else [])
      && (!confirmed ==> n == st)
      && (confirmed && !succeeded ==>
            n.selectedRating == st.selectedRating && n.comment == st.comment && n.isEditing == st.isEditing)
    ensures var n := OnDelete(st, movieId, true, true);
      && n.isEditing && n.comment == ""
      && OnSubmit(n, true, movieId, None, succeeded) == n.(alerts := n.alerts + [SELECT_RATING_ALERT])
  {
  }

  /** The submit button is enabled exactly when a score is selected and no
      mutation is in flight; an enabled button, pressed by a signed-in user,
      always issues a mutation. */
  lemma EnabledSubmitIssuesMutation(st: EditorState, movieId: Option<int>, existing: Option<ExistingRating>, succeeded: bool,
                                     submitting: bool, updating: bool, deleting: bool)
    requires !SubmitDisabled(st.selectedRating, submitting, updating, deleting)
    ensures st.selectedRating != 0 && !submitting && !updating && !deleting
    ensures |OnSubmit(st, true, movieId, existing, succeeded).mutations| == |st.mutations| + 1
  {
  }

  /** The button is disabled while any of the three mutations is pending,
      and, with none pending, exactly when no score is selected. */
  lemma SubmitDisabledWhenPending(selectedRating: int, submitting: bool, updating: bool, deleting: bool)
    ensures submitting || updating || deleting ==> SubmitDisabled(selectedRating, submitting, updating, deleting)
    ensures SubmitDisabled(selectedRating, false, false, false) <==> selectedRating == 0
  {
  }

  /** The read-only view and the edit form never show together, and a
      signed-in user always sees one of them once the rating has loaded; a
      signed-out user sees only the login prompt. The title says whether a
      rating exists. */
  lemma SectionExclusive(st: EditorState, existing: Option<ExistingRating>)
    ensures var s := Section(st, true, existing);
      && !(s.readOnlyView && s.editForm)
      && !s.loginPrompt
      && (s.title == "Your Rating" <==> existing.Some?)
    ensures var s := Section(st, false, existing);
      s.loginPrompt && !s.readOnlyView && !s.editForm && !s.editAndDeleteButtons
    ensures var s := Section(OnExistingRating(st, existing), true, existing);
      s.readOnlyView || s.editForm
  {
  }

  // ---------------------------------------------------------------------------
  // The component state
  // ---------------------------------------------------------------------------

  class RatingEditor {
    var selectedRating: int
    var comment: string
    var isEditing: bool
    var mutations: seq<Mutation>
    var navigations: seq<string>
    var alerts: seq<string>

    constructor ()
      ensures State() == INITIAL
    {
      selectedRating, comment, isEditing := 0, "", false;
      mutations, navigations, alerts := [], [], [];
    }

    function State(): EditorState
      reads this
    {
      EditorState(selectedRating, comment, isEditing, mutations, navigations, alerts)
    }

    method ExistingRatingChanged(existing: Option<ExistingRating>)
      modifies this
      ensures State() == OnExistingRating(old(State()), existing)
    {
      if existing.Some? {
        selectedRating := ShownScore(existing.value);
        comment := ShownComment(existing.value);
        isEditing := false;
      } else {
        isEditing := true;
      }
    }

    /** A click on the n-th star. */
    method SelectStar(star: int)
      requires 1 <= star <= 10
      modifies this
      ensures State() == old(State()).(selectedRating := star)
    {
      selectedRating := star;
    }

    method CommentChanged(text: string)
      modifies this
      ensures State() == old(State()).(comment := text)
    {
      comment := text;
    }

    method HandleEdit()
      modifies this
      ensures State() == old(State()).(isEditing := true)
    {
      isEditing := true;
    }

    method HandleCancel(existing: Option<ExistingRating>)
      modifies this
      ensures State() == OnCancel(old(State()), existing)
    {
      if existing.Some? {
        selectedRating := ShownScore(existing.value);
        comment := ShownComment(existing.value);
        isEditing := false;
      }
    }

    method HandleDelete(id: string, confirmed: bool, succeeded: bool)
      modifies this
      ensures State() == OnDelete(old(State()), ParseInt(id), confirmed, succeeded)
    {
      if confirmed {
        IssueDelete(DeleteRating(ParseInt(id)), succeeded);
      }
    }

    /** Issues the delete mutation; on success its callback resets the form. */
    method IssueDelete(m: Mutation, succeeded: bool)
      modifies this
      ensures State() == DeleteIssued(old(State()), m, succeeded)
    {
      mutations := mutations + [m];
      if succeeded {
        alerts := alerts + [DELETED_ALERT];
        selectedRating := 0;
        comment := "";
        isEditing := true;
      } else {
        alerts := alerts + [DELETE_FAILED_ALERT];
      }
    }

    method HandleRatingSubmit(authenticated: bool, id: string, existing: Option<ExistingRating>, succeeded: bool)
      modifies this
      ensures State() == OnSubmit(old(State()), authenticated, ParseInt(id), existing, succeeded)
    {
      Submit(authenticated, ParseInt(id), existing, succeeded);
    }

    /** The submit handler for the parsed movie id. */
    method Submit(authenticated: bool, movieId: Option<int>, existing: Option<ExistingRating>, succeeded: bool)
      modifies this
      ensures State() == OnSubmit(old(State()), authenticated, movieId, existing, succeeded)
    {
      if !authenticated {
        navigations := navigations + [LOGIN_ROUTE];
        return;
      }
      if selectedRating == 0 {
        alerts := alerts + [SELECT_RATING_ALERT];
        return;
      }
      var data := RatingDataOf(State(), movieId);
      if existing.Some? {
        Issue(UpdateRating(data), succeeded, UPDATED_ALERT, UPDATE_FAILED_ALERT);
      } else {
        Issue(SubmitRating(data), succeeded, SUBMITTED_ALERT, SUBMIT_FAILED_ALERT);
      }
    }

    /** Issues a mutation whose callbacks alert, and leave edit mode on success. */
    method Issue(m: Mutation, succeeded: bool, onSuccess: string, onError: string)
      modifies this
      ensures State() == old(State()).(mutations := old(mutations) + [m],
                                       alerts := old(alerts) + [if succeeded then onSuccess else onError],
                                       isEditing := if succeeded then false else old(isEditing))
    {
      mutations := mutations + [m];
      if succeeded {
        alerts := alerts + [onSuccess];
        isEditing := false;
      } else {
        alerts := alerts + [onError];
      }
    }
  }
}
