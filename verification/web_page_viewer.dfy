/**
 * Page-height resolution of src/components/WebPageViewer.tsx: the measured
 * frame height, the manual height read from and written to the `height`
 * query parameter, the default, the clamps of the height controls, and the
 * three-valued sync status. JavaScript numbers are exact reals here;
 * `Number(...)` is a parameter, and the framed document is described by what
 * reading it yields.
 */
module WebPageViewer {
  import opened Wrappers
  import opened QueryParams

  /** The result of `Number(...)`. */
  datatype JsNumber = Finite(v: real) | NaN | PosInfinity | NegInfinity

  datatype SyncStatus = Unknown | Ok | Blocked

  /** `Math.round`: the nearest integer, halves rounded up. */
  function Round(x: real): (r: int)
    ensures r as real - 1.0 / 2.0 <= x < r as real + 1.0 / 2.0
  {
    (x + 1.0 / 2.0).Floor
  }

  function MaxReal(a: real, b: real): (r: real)
    ensures r >= a && r >= b && (r == a || r == b)
  {
    if a >= b then a else b
  }

  // ---- Decimal text of an integer (`Number.prototype.toString`) ----

  function DigitChar(d: nat): char
    requires d < 10
  {
    ('0' as int + d) as char
  }

  predicate IsDigits(s: string) {
    |s| > 0 && forall i :: 0 <= i < |s| ==> '0' <= s[i] <= '9'
  }

  /** The value of a string of decimal digits. */
  function DigitsValue(s: string): nat
    requires IsDigits(s)
    decreases |s|
  {
    var d := (s[|s| - 1] as int - '0' as int) as nat;
    if |s| == 1 then d else DigitsValue(s[..|s| - 1]) * 10 + d
  }

  function NatToString(n: nat): (r: string)
    ensures IsDigits(r)
    ensures |r| > 1 ==> r[0] != '0'
  {
    if n < 10 then [DigitChar(n)] else NatToString(n / 10) + [DigitChar(n % 10)]
  }

  /** The decimal text of an integer, `-` first when negative. */
  function IntToString(n: int): (r: string)
    ensures n >= 0 ==> IsDigits(r)
    ensures n < 0 ==> |r| > 1 && r[0] == '-' && IsDigits(r[1..])
  {
    if n >= 0 then NatToString(n) else "-" + NatToString(-n)
  }

  /** Reading the digits back gives the number. */
  lemma {:induction false} DigitsRoundTrip(n: nat)
    ensures DigitsValue(NatToString(n)) == n
  {
    if n >= 10 {
      DigitsRoundTrip(n / 10);
      var s := NatToString(n);
      assert s[..|s| - 1] == NatToString(n / 10);
    }
  }

  // ---- Heights ----

  /** The raw height parameter: `get('height') || get('h')`. */
  function RawHeight(ps: seq<Param>): Option<string> {
    Or(Get(ps, "height"), Get(ps, "h"))
  }

  /**
   * The initial manual height: none when the raw parameter is missing or
   * empty, or when it does not convert to a finite positive number;
   * otherwise the number rounded.
   */
  function InitialManualHeight(ps: seq<Param>, toNumber: string -> JsNumber): (r: Option<real>)
    ensures r.Some? <==>
      Filled(RawHeight(ps)) && toNumber(RawHeight(ps).value).Finite? && toNumber(RawHeight(ps).value).v > 0.0
    ensures r.Some? ==>
      var x := toNumber(RawHeight(ps).value).v;
      && r.value >= 0.0 && r.value == r.value.Floor as real
      && x - 1.0 / 2.0 < r.value <= x + 1.0 / 2.0
  {
    var raw := RawHeight(ps);
    if !Filled(raw) then None
    else
      match toNumber(raw.value)
      case Finite(x) => if x <= 0.0 then None else Some(Round(x) as real)
      case _ => None
  }

  /** `Math.max(window.innerHeight, 1600)`. */
  function DefaultHeight(innerHeight: int): int {
    if innerHeight >= 1600 then innerHeight else 1600
  }

  /** `frameHeight ?? manualHeight ?? defaultHeight`. */
  function AppliedHeight(frame: Option<int>, manual: Option<real>, innerHeight: int): (r: real)
    ensures frame.Some? ==> r == frame.value as real
    ensures frame.None? && manual.Some? ==> r == manual.value
    ensures frame.None? && manual.None? ==> r == DefaultHeight(innerHeight) as real && r >= 1600.0
  {
    match frame
    case Some(h) => h as real
    case None => manual.GetOr(DefaultHeight(innerHeight) as real)
  }

  /** The value shown in the height input: the manual height, else the rounded applied height. */
  function HeightInputValue(manual: Option<real>, applied: real): (r: real)
    ensures manual.Some? ==> r == manual.value
    ensures manual.None? ==> r == r.Floor as real && applied - 1.0 / 2.0 < r <= applied + 1.0 / 2.0
  {
    match manual
    case Some(m) => m
    case None => Round(applied) as real
  }

  /** The CSS height of the frame box: the applied height, but at least 400. */
  function FrameStyleHeight(applied: real): (r: real)
    ensures r >= 400.0 && r >= applied
    ensures applied >= 400.0 ==> r == applied
    ensures r == applied || r == 400.0
  {
    MaxReal(applied, 400.0)
  }

  /** What the Taller button asks for. */
  function Taller(input: real): (r: real)
    ensures r == input + 600.0
  {
    input + 600.0
  }

  /** What the Shorter button asks for: 600 less, but never below 400. */
  function Shorter(input: real): (r: real)
    ensures r >= 400.0
    ensures input >= 1000.0 ==> r == input - 600.0
    ensures input < 1000.0 ==> r == 400.0
  {
    MaxReal(400.0, input - 600.0)
  }

  // ---- Viewer state and its transitions ----

  /** What reading `iframe.contentDocument` and its two scroll heights yields. */
  datatype FrameAccess =
    | Throws                                   // reading the document or a scroll height raises
    | NoDocument                               // no frame or no document: the handlers return
    | Document(rootScroll: int, bodyScroll: Option<int>)  // no body: reading it raises

  /** `frameHeight`, `heightSyncStatus`, `manualHeight`, and the page's query. */
  datatype ViewerState = ViewerState(frameHeight: Option<int>, status: SyncStatus,
                                     manualHeight: Option<real>, query: seq<Param>)

  /** The state on mount. */
  function Initial(ps: seq<Param>, toNumber: string -> JsNumber): ViewerState {
    ViewerState(None, Unknown, InitialManualHeight(ps, toNumber), ps)
  }

  /** The heights the state can hold: a measured height is positive, a manual one not negative. */
  predicate Sane(st: ViewerState) {
    && (st.frameHeight.Some? ==> st.frameHeight.value > 0)
    && (st.manualHeight.Some? ==> st.manualHeight.value >= 0.0)
  }

  /** `updateHeight`: measure `max(scrollHeights)` and keep it only when positive. */
  function HeightUpdated(st: ViewerState, access: FrameAccess): (r: ViewerState)
    ensures r.manualHeight == st.manualHeight && r.query == st.query
    ensures r.frameHeight != st.frameHeight ==>
      access.Document? && access.bodyScroll.Some? && r.frameHeight.Some? && r.frameHeight.value > 0
      && r.frameHeight.value == if access.rootScroll >= access.bodyScroll.value then access.rootScroll else access.bodyScroll.value
    ensures access.Throws? || (access.Document? && access.bodyScroll.None?) ==> r == st.(status := Blocked)
    ensures !(access.Throws? || (access.Document? && access.bodyScroll.None?)) ==> r.status == st.status
    ensures access.NoDocument? ==> r == st
    ensures access.Document? && access.bodyScroll.Some? ==>
      var max := if access.rootScroll >= access.bodyScroll.value then access.rootScroll else access.bodyScroll.value;
      r.frameHeight == if max > 0 then Some(max) else st.frameHeight
  {
    match access
    case Throws => st.(status := Blocked)
    case NoDocument => st
    case Document(root, body) =>
      match body
      case None => st.(status := Blocked)
      case Some(b) =>
        var next := if root >= b then root else b;
        if next > 0 then st.(frameHeight := Some(next)) else st
  }

  /** The frame's `load` handler: measure, then report `ok`; any exception reports `blocked`. */
  function Loaded(st: ViewerState, access: FrameAccess): (r: ViewerState)
    ensures r.manualHeight == st.manualHeight && r.query == st.query
    ensures access.NoDocument? ==> r == st
    ensures access.Throws? || (access.Document? && access.bodyScroll.None?) ==> r == st.(status := Blocked)
    ensures access.Document? && access.bodyScroll.Some? ==> r.status == Ok
    ensures access.Document? && access.bodyScroll.Some? ==>
      var max := if access.rootScroll >= access.bodyScroll.value then access.rootScroll else access.bodyScroll.value;
      r.frameHeight == if max > 0 then Some(max) else st.frameHeight
  {
    match access
    case Throws => st.(status := Blocked)
    case NoDocument => st
    case Document(_, body) =>
      if body.None? then st.(status := Blocked)
      else HeightUpdated(st, access).(status := Ok)
  }

  /** A new `url`: forget the measured height and the status. */
  function UrlReset(st: ViewerState): (r: ViewerState)
    ensures r.frameHeight.None? && r.status == Unknown
    ensures r.manualHeight == st.manualHeight && r.query == st.query
  {
    st.(frameHeight := None, status := Unknown)
  }

  /**
   * `applyManualHeight`: remember `next` as given; write its rounded value to
   * `height` when it is present and non-zero, otherwise delete `height`.
   */
  function ManualHeightApplied(st: ViewerState, next: Option<real>): (r: ViewerState)
    ensures r.manualHeight == next && r.frameHeight == st.frameHeight && r.status == st.status
    ensures next.Some? && next.value != 0.0 ==> Get(r.query, "height") == Some(IntToString(Round(next.value)))
    ensures next.None? || next.value == 0.0 ==> !Has(r.query, "height")
    ensures Delete(r.query, "height") == Delete(st.query, "height")
  {
    var query :=
      if next.Some? && next.value != 0.0 then Set(st.query, "height", IntToString(Round(next.value)))
      else Delete(st.query, "height");
    SetProperties(st.query, "height", IntToString(Round(next.GetOr(0.0))));
    DeleteAbsent(Delete(st.query, "height"), "height");
    st.(manualHeight := next, query := query)
  }

  /** The height input's `onChange`: a finite positive number is applied, anything else clears. */
  function HeightTyped(st: ViewerState, typed: JsNumber): (r: ViewerState)
    ensures typed.Finite? && typed.v > 0.0 ==> r == ManualHeightApplied(st, Some(typed.v))
    ensures !(typed.Finite? && typed.v > 0.0) ==> r == ManualHeightApplied(st, None) && r.manualHeight.None?
  {
    if typed.Finite? && typed.v > 0.0 then ManualHeightApplied(st, Some(typed.v))
    else ManualHeightApplied(st, None)
  }

  function InputValue(st: ViewerState, innerHeight: int): real {
    HeightInputValue(st.manualHeight, AppliedHeight(st.frameHeight, st.manualHeight, innerHeight))
  }

  /** The Taller button. */
  function TallerPressed(st: ViewerState, innerHeight: int): ViewerState {
    ManualHeightApplied(st, Some(Taller(InputValue(st, innerHeight))))
  }

  /** The Shorter button. */
  function ShorterPressed(st: ViewerState, innerHeight: int): ViewerState {
    ManualHeightApplied(st, Some(Shorter(InputValue(st, innerHeight))))
  }

  /** The input value of a sane state is never negative. */
  lemma InputValueNonNegative(st: ViewerState, innerHeight: int)
    requires Sane(st)
    ensures InputValue(st, innerHeight) >= 0.0
  {
  }

  /** Every transition keeps the heights sane; the frame box is then always at least 400 high. */
  lemma TransitionsKeepSane(st: ViewerState, access: FrameAccess, typed: JsNumber, innerHeight: int)
    requires Sane(st)
    ensures Sane(HeightUpdated(st, access)) && Sane(Loaded(st, access)) && Sane(UrlReset(st))
    ensures Sane(HeightTyped(st, typed))
    ensures Sane(TallerPressed(st, innerHeight)) && TallerPressed(st, innerHeight).manualHeight.value >= 600.0
    ensures Sane(ShorterPressed(st, innerHeight)) && ShorterPressed(st, innerHeight).manualHeight.value >= 400.0
  {
    InputValueNonNegative(st, innerHeight);
  }

  /** The initial state is sane. */
  lemma InitialSane(ps: seq<Param>, toNumber: string -> JsNumber)
    ensures Sane(Initial(ps, toNumber))
  {
  }

  /**
   * Reload round trip: when `Number` reads plain digit strings as their value,
   * a manual height that rounds to at least 1 comes back, rounded, from the
   * URL it wrote.
   */
  lemma ManualHeightSurvivesReload(st: ViewerState, next: real, toNumber: string -> JsNumber)
    requires Round(next) >= 1
    requires forall s :: IsDigits(s) ==> toNumber(s) == Finite(DigitsValue(s) as real)
    ensures InitialManualHeight(ManualHeightApplied(st, Some(next)).query, toNumber) == Some(Round(next) as real)
  {
    var q := ManualHeightApplied(st, Some(next)).query;
    var text := IntToString(Round(next));
    assert RawHeight(q) == Some(text);
    DigitsRoundTrip(Round(next));
    assert toNumber(text) == Finite(Round(next) as real);
    assert Round(Round(next) as real) == Round(next);
  }

  /** The viewer component's state, changed by its handlers. */
  class Viewer {
    var frameHeight: Option<int>
    var status: SyncStatus
    var manualHeight: Option<real>
    var query: seq<Param>

    function State(): ViewerState
      reads this
    {
      ViewerState(frameHeight, status, manualHeight, query)
    }

    constructor (ps: seq<Param>, toNumber: string -> JsNumber)
      ensures State() == Initial(ps, toNumber)
    {
      frameHeight := None;
      status := Unknown;
      query := ps;
      var raw := Or(Get(ps, "height"), Get(ps, "h"));
      manualHeight := None;
      if Filled(raw) {
        var parsed := toNumber(raw.value);
        if parsed.Finite? && parsed.v > 0.0 {
          manualHeight := Some(Round(parsed.v) as real);
        }
      }
    }

    method UpdateHeight(access: FrameAccess)
      modifies this
      ensures State() == HeightUpdated(old(State()), access)
    {
      match access {
        case Throws =>
          status := Blocked;
        case NoDocument =>
        case Document(root, body) =>
          if body.None? {
            status := Blocked;
          } else {
            var next := if root >= body.value then root else body.value;
            if next > 0 {
              frameHeight := Some(next);
            }
          }
      }
    }

    method HandleLoad(access: FrameAccess)
      modifies this
      ensures State() == Loaded(old(State()), access)
    {
      if access.Throws? || (access.Document? && access.bodyScroll.None?) {
        status := Blocked;
        return;
      }
      if access.NoDocument? {
        return;
      }
      UpdateHeight(access);
      status := Ok;
    }

    method UrlChanged()
      modifies this
      ensures State() == UrlReset(old(State()))
    {
      frameHeight := None;
      status := Unknown;
    }

    method ApplyManualHeight(next: Option<real>)
      modifies this
      ensures State() == ManualHeightApplied(old(State()), next)
    {
      manualHeight := next;
      if next.Some? && next.value != 0.0 {
        query := Set(query, "height", IntToString(Round(next.value)));
      } else {
        query := Delete(query, "height");
      }
    }

    method OnHeightInput(typed: JsNumber)
      modifies this
      ensures State() == HeightTyped(old(State()), typed)
    {
      if !typed.Finite? || typed.v <= 0.0 {
        ApplyManualHeight(None);
        return;
      }
      ApplyManualHeight(Some(typed.v));
    }

    method Taller(innerHeight: int)
      modifies this
      ensures State() == TallerPressed(old(State()), innerHeight)
    {
      var input := HeightInputValue(manualHeight, AppliedHeight(frameHeight, manualHeight, innerHeight));
      ApplyManualHeight(Some(input + 600.0));
    }

    method Shorter(innerHeight: int)
      modifies this
      ensures State() == ShorterPressed(old(State()), innerHeight)
    {
      var input := HeightInputValue(manualHeight, AppliedHeight(frameHeight, manualHeight, innerHeight));
      ApplyManualHeight(Some(MaxReal(400.0, input - 600.0)));
    }
  }
}
