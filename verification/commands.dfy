/**
 * The pure parts of the `/showtask` and `/complete` handlers: the numbered
 * task-list reply, and the resolution of `/complete <n>` to a position in the
 * user's listing with Python's list-indexing rules.
 */
module Commands {
  import opened Wrappers
  import opened Strings
  import opened TaskStore

  const NO_TASKS := "📭 No tasks."
  const TASK_LIST_HEADER := "📝 Your tasks:"

  /**
   * One line of the listing: `f"{i+1}. {task} [{status}]"` with `number == i + 1`.
   * The line opens with the number, which `int` reads back, and a task text
   * without newlines gives a line without newlines.
   */
  function TaskLine(number: int, t: Task): (line: string)
    ensures |ShowInt(number)| <= |line| && ParseInt(line[..|ShowInt(number)|]) == Some(number)
    ensures '\n' !in t.text ==> '\n' !in line
  {
    ParseShowInt(number);
    NoNewlineInShowInt(number);
    var line := ShowInt(number) + ". " + t.text + " [" + StatusText(t.status) + "]";
    assert line[..|ShowInt(number)|] == ShowInt(number);
    line
  }

  /** The listing lines, numbered from 1 in list order. */
  function TaskLines(ts: seq<Task>): (lines: seq<string>)
    ensures |lines| == |ts|
  {
    seq(|ts|, i requires 0 <= i < |ts| => TaskLine(i + 1, ts[i]))
  }

  /**
   * The reply of `/showtask` for the listing `ts`: the fixed "no tasks" reply
   * exactly when the listing is empty, otherwise the header on a line of its own.
   */
  function TaskListReply(ts: seq<Task>): (reply: string)
    ensures reply == NO_TASKS <==> |ts| == 0
    ensures |ts| > 0 ==> TASK_LIST_HEADER + "\n" <= reply
  {
    if |ts| == 0 then NO_TASKS
    else
      var reply := TASK_LIST_HEADER + "\n" + JoinLines(TaskLines(ts));
      assert reply[0] == TASK_LIST_HEADER[0] != NO_TASKS[0];
      reply
  }

  /**
   * Read line by line, the reply is the header followed by exactly one line
   * per task, line `i` (from 0) being task `i` numbered `i + 1`; an empty
   * listing gets the fixed "no tasks" reply.  Task texts are assumed free of
   * newlines, otherwise a task would span several lines.
   */
  lemma TaskListReplyLines(ts: seq<Task>)
    requires forall i :: 0 <= i < |ts| ==> '\n' !in ts[i].text
    ensures |ts| == 0 ==> TaskListReply(ts) == NO_TASKS
    ensures |ts| > 0 ==> SplitLines(TaskListReply(ts)) == [TASK_LIST_HEADER] + TaskLines(ts)
    ensures |ts| > 0 ==> |SplitLines(TaskListReply(ts))| == |ts| + 1
    ensures forall i :: 0 <= i < |ts| ==>
      TaskLines(ts)[i] == ShowInt(i + 1) + ". " + ts[i].text + " [" + StatusText(ts[i].status) + "]"
  {
    if |ts| > 0 {
      var all := [TASK_LIST_HEADER] + TaskLines(ts);
      forall i | 0 <= i < |all| ensures '\n' !in all[i] {
        if i > 0 {
          assert all[i] == TaskLine(i, ts[i - 1]);
        }
      }
      SplitJoinLines(all);
      assert all[1..] == TaskLines(ts);
    }
  }

  /**
   * `t[k]` on a Python list of length `len`: the position read, or `None`
   * where Python raises IndexError.  A negative `k` counts from the end.
   */
  function PyIndex(len: nat, k: int): (r: Option<nat>)
    ensures r.Some? <==> -(len as int) <= k < len
    ensures r.Some? ==> r.value < len && r.value == k % len
  {
    if 0 <= k < len then Some(k)
    else if -(len as int) <= k < 0 then Some(len + k)
    else None
  }

  /**
   * `t[int(context.args[0]) - 1]` for a listing of length `len`: the position
   * `/complete` acts on, or `None` where any step raises (no argument, not an
   * integer, index out of range).
   */
  function ResolveComplete(args: seq<string>, len: nat): (r: Option<nat>)
    ensures r.Some? <==>
      |args| > 0 && ParseInt(args[0]).Some? && -(len as int) <= ParseInt(args[0]).value - 1 < len
    ensures r.Some? ==> r.value < len && r.value == (ParseInt(args[0]).value - 1) % len
  {
    if |args| == 0 then None
    else
      match ParseInt(args[0])
      case None => None
      case Some(n) => PyIndex(len, n - 1)
  }

  /** The number printed in front of a task in the listing completes that task. */
  lemma CompleteShownNumber(i: nat, len: nat, rest: seq<string>)
    requires i < len
    ensures ResolveComplete([ShowInt(i + 1)] + rest, len) == Some(i)
  {
    ParseShowInt(i + 1);
  }

  /** A number from `1 - len` to `0` wraps around and counts from the end. */
  lemma CompleteWrapsAround(n: int, len: nat, rest: seq<string>)
    requires 1 - len <= n <= 0
    ensures ResolveComplete([ShowInt(n)] + rest, len) == Some(len + n - 1)
  {
    ParseShowInt(n);
  }

  /** `/complete 0` on a non-empty listing completes its last task. */
  lemma CompleteZeroIsLast(len: nat)
    requires len > 0
    ensures ResolveComplete(["0"], len) == Some(len - 1)
  {
    CompleteWrapsAround(0, len, []);
    assert ShowInt(0) == "0";
  }

  /** With no tasks, every `/complete` fails. */
  lemma CompleteOnEmptyFails(args: seq<string>)
    ensures ResolveComplete(args, 0) == None
  {
  }
}
