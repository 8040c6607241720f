/**
 * The team to-do list: its add handler (blank-text guard, prepend, form
 * reset) and the "+ Add" toggle.
 */
module ToDoList {
  import opened Tickets

  /** JavaScript's WhiteSpace and LineTerminator code points, which
      `String.prototype.trim` removes. */
  predicate IsJsWhitespace(c: char)
    ensures c as int < 0x80 ==> (IsJsWhitespace(c) <==> c == ' ' || 0x09 <= c as int <= 0x0D)
    ensures IsJsWhitespace(c) ==> c as int <= 0xFEFF
  {
    var n := c as int;
    || n in {0x09, 0x0A, 0x0B, 0x0C, 0x0D, 0x20, 0xA0, 0x1680}
    || 0x2000 <= n <= 0x200A
    || n in {0x2028, 0x2029, 0x202F, 0x205F, 0x3000, 0xFEFF}
  }

  /** Drop leading white space: the result is a suffix of `s`, everything
      cut off is white space, and it does not start with white space. */
  function TrimStart(s: string): (r: string)
    ensures |r| <= |s| && r == s[|s| - |r|..]
    ensures forall i :: 0 <= i < |s| - |r| ==> IsJsWhitespace(s[i])
    ensures r != [] ==> !IsJsWhitespace(r[0])
  {
    if s != [] && IsJsWhitespace(s[0]) then TrimStart(s[1..]) else s
  }

  /** Drop trailing white space: the result is a prefix of `s`, everything
      cut off is white space, and it does not end with white space. */
  function TrimEnd(s: string): (r: string)
    ensures |r| <= |s| && r == s[..|r|]
    ensures forall i :: |r| <= i < |s| ==> IsJsWhitespace(s[i])
    ensures r != [] ==> !IsJsWhitespace(r[|r| - 1])
  {
    if s != [] && IsJsWhitespace(s[|s| - 1]) then TrimEnd(s[..|s| - 1]) else s
  }

  /** `r` is `s[k..k + |r|]` and everything outside that slice is white space. */
  ghost predicate SlicedByWhitespace(s: string, r: string, k: int)
  {
    && 0 <= k <= |s| - |r| && r == s[k..k + |r|]
    && (forall i :: 0 <= i < k ==> IsJsWhitespace(s[i]))
    && (forall i :: k + |r| <= i < |s| ==> IsJsWhitespace(s[i]))
  }

  /** A prefix of a suffix is a slice, and its surroundings stay white space. */
  lemma SliceOfSuffix(s: string, t: string, r: string, k: int)
    requires 0 <= k <= |s| && t == s[k..] && |r| <= |t| && r == t[..|r|]
    requires forall i :: 0 <= i < k ==> IsJsWhitespace(s[i])
    requires forall i :: |r| <= i < |t| ==> IsJsWhitespace(t[i])
    ensures SlicedByWhitespace(s, r, k)
  {
    assert r == s[k..k + |r|];
    forall i | k + |r| <= i < |s|
      ensures IsJsWhitespace(s[i])
    {
      assert s[i] == t[i - k];
    }
  }

  /** Trimming both ends leaves a slice with only white space around it. */
  lemma TrimBothEnds(s: string)
    ensures SlicedByWhitespace(s, TrimEnd(TrimStart(s)), |s| - |TrimStart(s)|)
  {
    var t := TrimStart(s);
    SliceOfSuffix(s, t, TrimEnd(t), |s| - |t|);
  }

  /** `String.prototype.trim`: the result is a slice of `s` with white space
      only before and after it, and it neither starts nor ends with white
      space. */
  function Trim(s: string): (r: string)
    ensures exists k :: SlicedByWhitespace(s, r, k)
    ensures r != [] ==> !IsJsWhitespace(r[0]) && !IsJsWhitespace(r[|r| - 1])
  {
    TrimBothEnds(s);
    TrimEnd(TrimStart(s))
  }

  /** Trimming twice is trimming once. */
  lemma TrimIdempotent(s: string)
    ensures Trim(Trim(s)) == Trim(s)
  {
    var r := Trim(s);
    if r != [] {
      assert TrimStart(r) == r;
      assert TrimEnd(r) == r;
    }
  }

  /** `!text.trim()` holds exactly when the text is all white space. */
  lemma TrimEmptyIffBlank(s: string)
    ensures Trim(s) == "" <==> forall i :: 0 <= i < |s| ==> IsJsWhitespace(s[i])
  {
    if Trim(s) == "" {
      var k :| SlicedByWhitespace(s, Trim(s), k);
    }
  }

  /** A task: its id (`Date.now()`), the text as typed, and the object URL of
      its screenshot if one was picked. */
  datatype Task = Task(id: int, text: string, screenshot: Option<string>)

  class ToDoList {
    var tasks: seq<Task>
    var showForm: bool
    var newTask: string
    var screenshot: Option<FileRef>

    constructor ()
      ensures tasks == [] && !showForm && newTask == "" && screenshot == None
    {
      tasks := [];
      showForm := false;
      newTask := "";
      screenshot := None;
    }

    /** `handleAddTask`. `now` is `Date.now()` and `objectUrl` what
        `URL.createObjectURL` returns for the picked file. Blank text changes
        nothing; otherwise the untrimmed text goes to the front of the list
        and the form is reset and hidden. */
    method HandleAddTask(now: int, objectUrl: string) returns (added: bool)
      modifies this
      ensures added <==> Trim(old(newTask)) != ""
      ensures !added ==> && tasks == old(tasks) && showForm == old(showForm)
                         && newTask == old(newTask) && screenshot == old(screenshot)
      ensures added ==> && tasks == [Task(now, old(newTask), if old(screenshot).Some? then Some(objectUrl) else None)] + old(tasks)
                        && newTask == "" && screenshot == None && !showForm
    {
      var text, picked, before := newTask, screenshot, tasks;
      if Trim(text) == "" {
        return false;
      }
      var task := Task(now, text, if picked.Some? then Some(objectUrl) else None);
      tasks, newTask, screenshot, showForm := [task] + before, "", None, false;
      added := true;
    }

    /** The "+ Add" button. */
    method ToggleForm()
      modifies this`showForm
      ensures showForm == !old(showForm)
    {
      showForm := !showForm;
    }
  }
}
