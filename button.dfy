/**
 * The button widget: which clicks count, the one-job-at-a-time gate, and the
 * class list it renders.
 */
module Button {
  import opened Wrappers

  /** The fields of a mouse event the button looks at. */
  datatype ClickEvent = ClickEvent(button: int, ctrlKey: bool, shiftKey: bool, altKey: bool, metaKey: bool)

  datatype Props = Props(disabled: bool, activeCls: string, debounceRate: int)

  /** Props as the parent passes them; a missing one takes its default. */
  datatype GivenProps = GivenProps(disabled: Option<bool>, activeCls: Option<string>, debounceRate: Option<int>)

  /** The state of the button's last job: a fresh button holds an already resolved one. */
  datatype Job = Settled | Pending

  /** `getDefaultProps` merged under the given props. */
  function WithDefaults(given: GivenProps): (p: Props)
    ensures given.disabled.None? ==> !p.disabled
    ensures given.activeCls.None? ==> p.activeCls == "active"
    ensures given.debounceRate.None? ==> p.debounceRate == 200
    ensures given.disabled.Some? ==> p.disabled == given.disabled.value
    ensures given.activeCls.Some? ==> p.activeCls == given.activeCls.value
    ensures given.debounceRate.Some? ==> p.debounceRate == given.debounceRate.value
  {
    Props(given.disabled.GetOr(false), given.activeCls.GetOr("active"), given.debounceRate.GetOr(200))
  }

  /** A left click with no modifier key. */
  function IsValidClickEvent(e: ClickEvent): (ok: bool)
    ensures ok <==> e == ClickEvent(0, false, false, false, false)
  {
    e.button == 0 && !e.ctrlKey && !e.shiftKey && !e.altKey && !e.metaKey
  }

  /** `cls.join(" ")`. */
  function JoinWithSpaces(words: seq<string>): string {
    if |words| == 0 then ""
    else if |words| == 1 then words[0]
    else words[0] + " " + JoinWithSpaces(words[1..])
  }

  /** `s.split(" ")`: the pieces between spaces, empty ones included. */
  function SplitOnSpaces(s: string): (pieces: seq<string>)
    ensures |pieces| >= 1
  {
    if s == [] then [""]
    else
      var rest := SplitOnSpaces(s[1..]);
      if s[0] == ' ' then [""] + rest else [[s[0]] + rest[0]] + rest[1..]
  }

  /** A word without spaces glues onto the first piece of what follows it. */
  lemma {:induction false} SplitAfterWord(w: string, s: string)
    requires ' ' !in w
    ensures SplitOnSpaces(w + s) == [w + SplitOnSpaces(s)[0]] + SplitOnSpaces(s)[1..]
  {
    if w != [] {
      assert (w + s)[1..] == w[1..] + s;
      assert ' ' !in w[1..] by {
        forall i | 0 <= i < |w[1..]| ensures w[1..][i] != ' ' {
          assert w[1..][i] == w[i + 1];
        }
      }
      SplitAfterWord(w[1..], s);
      assert [w[0]] + (w[1..] + SplitOnSpaces(s)[0]) == w + SplitOnSpaces(s)[0];
    } else {
      var pieces := SplitOnSpaces(s);
      assert w + s == s;
      assert w + pieces[0] == pieces[0];
      assert [pieces[0]] + pieces[1..] == pieces;
    }
  }

  /** Splitting words joined with spaces and followed by a space and more text gives the words, then the pieces of that text. */
  lemma {:induction false} SplitJoinThen(words: seq<string>, more: string)
    requires |words| >= 1
    requires forall i :: 0 <= i < |words| ==> ' ' !in words[i]
    ensures SplitOnSpaces(JoinWithSpaces(words) + " " + more) == words + SplitOnSpaces(more)
  {
    var tail := if |words| == 1 then more else JoinWithSpaces(words[1..]) + " " + more;
    assert JoinWithSpaces(words) + " " + more == words[0] + (" " + tail);
    SplitAfterWord(words[0], " " + tail);
    assert (" " + tail)[1..] == tail;
    assert words[0] + "" == words[0];
    if |words| > 1 {
      SplitJoinThen(words[1..], more);
      assert [words[0]] + words[1..] == words;
    }
  }

  /** Joining words that hold no space and splitting again gives the words back. */
  lemma {:induction false} SplitJoinRoundTrip(words: seq<string>)
    requires |words| >= 1
    requires forall i :: 0 <= i < |words| ==> ' ' !in words[i]
    ensures SplitOnSpaces(JoinWithSpaces(words)) == words
  {
    if |words| == 1 {
      SplitAfterWord(words[0], "");
      assert words[0] + "" == words[0];
    } else {
      var rest := JoinWithSpaces(words[1..]);
      SplitJoinRoundTrip(words[1..]);
      assert words[0] + " " + rest == words[0] + (" " + rest);
      SplitAfterWord(words[0], " " + rest);
      assert (" " + rest)[1..] == rest;
      assert words[0] + "" == words[0];
      assert [words[0]] + words[1..] == words;
    }
  }

  class Button {
    var props: Props
    var job: Job
    /** The jobs started and not yet settled. */
    ghost var inFlight: nat

    ghost predicate Valid()
      reads this
    {
      inFlight == if job.Pending? then 1 else 0
    }

    /** `getInitialState` with `getDefaultProps`: the initial job is already resolved. */
    constructor (given: GivenProps)
      ensures Valid()
      ensures props == WithDefaults(given)
      ensures job == Settled && !IsActive() && inFlight == 0
    {
      props := WithDefaults(given);
      job := Settled;
      inFlight := 0;
    }

    /** `isActive`: the last job is still pending. */
    predicate IsActive()
      reads this
      ensures IsActive() <==> job == Pending
    {
      job.Pending?
    }

    /** The parent re-renders the button with new props. */
    method ReceiveProps(given: GivenProps)
      modifies this`props
      ensures props == WithDefaults(given)
    {
      props := WithDefaults(given);
    }

    /**
     * `onClick`: a valid click has its default prevented; it starts `f` as a
     * new pending job only when no job is pending and the button is enabled.
     * So at most one job is ever in flight.
     */
    method OnClick(e: ClickEvent) returns (prevented: bool, started: bool)
      requires Valid()
      modifies this`job, this`inFlight
      ensures Valid() && inFlight <= 1
      ensures prevented == IsValidClickEvent(e)
      ensures started <==> IsValidClickEvent(e) && !old(IsActive()) && !props.disabled
      ensures started ==> job == Pending && inFlight == old(inFlight) + 1
      ensures !started ==> job == old(job) && inFlight == old(inFlight)
    {
      prevented, started := false, false;
      if IsValidClickEvent(e) {
        prevented := true;
        if !IsActive() && !props.disabled {
          job := Pending;
          inFlight := inFlight + 1;
          started := true;
        }
      }
    }

    /** The pending job (`f` followed by the debounce delay) settles. */
    method Settle()
      requires Valid() && IsActive()
      modifies this`job, this`inFlight
      ensures Valid() && !IsActive()
      ensures inFlight == old(inFlight) - 1
    {
      job := Settled;
      inFlight := inFlight - 1;
    }

    /** The classes `render` puts on the link. */
    function ClassList(): (cls: seq<string>)
      reads this
      ensures |cls| == 1 + (if props.disabled then 1 else 0) + (if IsActive() then 1 else 0)
      ensures cls[0] == "button"
      ensures props.disabled ==> cls[1] == "disabled"
      ensures IsActive() ==> cls[|cls| - 1] == props.activeCls
    {
      ["button"] + (if props.disabled then ["disabled"] else [])
                 + (if IsActive() then [props.activeCls] else [])
    }

    /**
     * The rendered `className`: the class list joined with spaces, then the
     * class name the parent passed, which `transferPropsTo` appends after a
     * space unless it is empty.
     */
    function ClassName(parentClassName: string): (name: string)
      reads this
      ensures |name| >= 6 && name[..6] == "button"
    {
      var own := JoinWithSpaces(ClassList());
      assert own == "button" + own[6..];
      if parentClassName == "" then own else own + " " + parentClassName
    }

    /**
     * When the active class has no space, the rendered class name reads back
     * as the class list followed by the pieces of the parent's class name.
     */
    lemma ClassNameReadsBack(parentClassName: string)
      requires ' ' !in props.activeCls
      ensures SplitOnSpaces(ClassName(parentClassName)) ==
              ClassList() + (if parentClassName == "" then [] else SplitOnSpaces(parentClassName))
    {
      var cls := ClassList();
      forall i | 0 <= i < |cls| ensures ' ' !in cls[i] {
      }
      if parentClassName == "" {
        SplitJoinRoundTrip(cls);
        assert cls + [] == cls;
      } else {
        SplitJoinThen(cls, parentClassName);
      }
    }
  }

  /**
   * A fresh button with default props renders as "button", takes the first
   * plain left click and ignores the second while the job is pending.
   */
  method FreshButtonTakesOneClick() returns (b: Button, started: bool, again: bool)
    ensures fresh(b) && b.Valid()
    ensures started && !again
    ensures b.ClassName("") == "button active"
    ensures b.IsActive()
  {
    b := new Button(GivenProps(None, None, None));
    assert b.ClassName("") == "button";
    var prevented;
    prevented, started := b.OnClick(ClickEvent(0, false, false, false, false));
    prevented, again := b.OnClick(ClickEvent(0, false, false, false, false));
    assert b.ClassList() == ["button", "active"];
    assert JoinWithSpaces(["active"]) == "active";
  }
}
