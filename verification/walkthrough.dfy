/**
 * Clients of the bot, stated against the contracts alone: the registration
 * flow; adding two tasks; listing them; completing number 2; and an
 * out-of-range number, which changes nothing.
 */
module Walkthrough {
  import opened Wrappers
  import opened Strings
  import opened TaskStore
  import opened Commands
  import opened Dispatch

  method RegistrationWalkthrough(alice: Uid, name: string, now: Clock)
  {
    var store := new Store();
    var bot := new Bot(store);
    var r := bot.Process(Update(alice, None, Command("start", [])), now);
    assert r == Some(WELCOME_PROMPT) && alice !in bot.registering;
    r := bot.Process(Update(alice, None, Command("register", [])), now);
    assert r == Some(WELCOME_PROMPT) && alice !in store.users && alice in bot.registering;
    r := bot.Process(Update(alice, None, Text(name)), now);
    assert store.users == map[alice := User(name, NO_USERNAME, now)];
    r := bot.Process(Update(alice, Some("al"), Command("register", [])), now);
    assert r == Some(WELCOME_BACK) && alice !in bot.registering;
  }

  method TaskIntakeWalkthrough(alice: Uid, first: string, second: string, now: Clock)
  {
    var store := new Store();
    var bot := new Bot(store);
    var r := bot.Process(Update(alice, None, Command("addtask", [])), now);
    assert bot.adding == {alice} && bot.registering == {} && store.tasks == [] && store.nextId == 1;
    r := bot.Process(Update(alice, None, Text(first)), now);
    var t1 := Task(1, alice, first, now, now, Pending);
    assert bot.adding == {alice} && bot.registering == {} && store.tasks == [t1] && store.nextId == 2;
    r := bot.Process(Update(alice, None, Text(second)), now);
    var t2 := Task(2, alice, second, now, now, Pending);
    assert r == Some(TASK_ADDED);
    assert bot.adding == {alice} && bot.registering == {} && store.tasks == [t1, t2];
    r := bot.Process(Update(alice, None, Command("donetask", [])), now);
    assert bot.adding == {} && store.tasks == [t1, t2];
  }

  /** A store holding two pending tasks of `alice`, with ids 1 and 2. */
  method TwoTaskStore(alice: Uid, first: string, second: string, now: Clock) returns (store: Store)
    ensures fresh(store) && store.Valid()
    ensures store.tasks == [Task(1, alice, first, now, now, Pending), Task(2, alice, second, now, now, Pending)]
    ensures store.GetTasks(alice) == store.tasks
    ensures forall v :: v != alice ==> store.GetTasks(v) == []
  {
    store := new Store();
    assert forall v :: store.GetTasks(v) == [];
    store.AddTask(alice, first, now);
    store.AddTask(alice, second, now);
  }

  method ShowOtherUserWalkthrough(alice: Uid, bob: Uid, first: string, second: string, now: Clock)
    requires alice != bob
  {
    var store := TwoTaskStore(alice, first, second, now);
    var bot := new Bot(store);
    var r := bot.Process(Update(bob, None, Command("showtask", [])), now);
    assert r == Some(NO_TASKS);
  }

  method ShowTwoTasksWalkthrough(alice: Uid, first: string, second: string, now: Clock)
    requires '\n' !in first && '\n' !in second
  {
    var store := TwoTaskStore(alice, first, second, now);
    var bot := new Bot(store);
    var r := bot.Process(Update(alice, None, Command("showtask", [])), now);
    TwoTaskListing(alice, first, second, now);
    assert SplitLines(r.value) == [TASK_LIST_HEADER, "1. " + first + " [pending]", "2. " + second + " [pending]"];
  }

  /** Two pending tasks list, line by line, as the header and the tasks numbered 1 and 2. */
  lemma TwoTaskListing(uid: Uid, first: string, second: string, now: Clock)
    requires '\n' !in first && '\n' !in second
    ensures SplitLines(TaskListReply([Task(1, uid, first, now, now, Pending), Task(2, uid, second, now, now, Pending)]))
      == [TASK_LIST_HEADER, "1. " + first + " [pending]", "2. " + second + " [pending]"]
  {
    assert " [" + StatusText(Pending) + "]" == " [pending]";
    assert ShowInt(1) + ". " == "1. " && ShowInt(2) + ". " == "2. " by {
      assert ShowInt(1) == "1" && ShowInt(2) == "2";
    }
    var ts := [Task(1, uid, first, now, now, Pending), Task(2, uid, second, now, now, Pending)];
    TaskListReplyLines(ts);
    var lines := TaskLines(ts);
    assert lines[0] == ShowInt(1) + ". " + first + " [" + StatusText(Pending) + "]";
    assert lines[1] == ShowInt(2) + ". " + second + " [" + StatusText(Pending) + "]";
    assert lines[0] == "1. " + first + " [pending]";
    assert lines[1] == "2. " + second + " [pending]";
    assert lines == ["1. " + first + " [pending]", "2. " + second + " [pending]"];
  }

  method CompleteSecondWalkthrough(alice: Uid, first: string, second: string, now: Clock, later: Clock)
  {
    var store := TwoTaskStore(alice, first, second, now);
    var bot := new Bot(store);
    var t1, t2 := store.tasks[0], store.tasks[1];
    assert ResolveComplete(["2"], 2) == Some(1) by {
      assert ParseInt("2") == Some(2);
    }
    var r := bot.Process(Update(alice, None, Command("complete", ["2"])), later);
    assert r == Some(TASK_COMPLETED);
    assert store.tasks == [t1, CompletedRow(t2, later)] by {
      MarkCompletedUniqueAt([t1, t2], 1, later);
    }
  }

  method CompleteOutOfRangeWalkthrough(alice: Uid, first: string, second: string, now: Clock)
  {
    var store := TwoTaskStore(alice, first, second, now);
    var bot := new Bot(store);
    var before := store.tasks;
    assert ResolveComplete(["5"], 2) == None by {
      assert ParseInt("5") == Some(5);
    }
    var r := bot.Process(Update(alice, None, Command("complete", ["5"])), now);
    assert r == Some(COMPLETE_USAGE) && store.tasks == before;
  }
}
