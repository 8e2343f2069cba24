/**
 * The chat handlers and their dispatch.
 *
 * Five handlers sit in one group, in registration order: `/start`,
 * `/showtask` and `/complete` as plain command handlers, then the
 * registration conversation (entry `/register`, state REGISTER) and the
 * task-intake conversation (entry `/addtask`, state ADDING_TASK, fallback
 * `/donetask`).  The first handler that matches an update handles it.  Each
 * conversation keeps, per user, the state its callbacks last returned; a
 * conversation with a single state is the set of users currently in it.
 * Replies are returned instead of being sent.
 */
module Dispatch {
  import opened Wrappers
  import opened Strings
  import opened TaskStore
  import opened Commands

  const WELCOME_PROMPT := "👋 Welcome! Please enter your full name:"
  const WELCOME_BACK := "👋 Welcome back! Use /addtask or /showtask."
  const ADD_TASK_PROMPT := "📌 Send task(s) one by one. Use /donetask to stop."
  const TASK_ADDED := "✅ Task added."
  const DONE_ADDING := "🛑 Done adding tasks."
  const TASK_COMPLETED := "✅ Task marked complete."
  const COMPLETE_USAGE := "⚠️ Error. Usage: /complete [task_number]"
  const NO_USERNAME := "no_username"

  const REGISTERED_PREFIX := "✅ Registered as "
  const REGISTERED_SUFFIX := ". Use /addtask."

  /** The confirmation after registration; the name can be read back out of it. */
  function RegisteredReply(name: string): (r: string)
    ensures |r| == |REGISTERED_PREFIX| + |name| + |REGISTERED_SUFFIX|
    ensures REGISTERED_PREFIX <= r && r[|REGISTERED_PREFIX|..|r| - |REGISTERED_SUFFIX|] == name
    ensures r[|r| - |REGISTERED_SUFFIX|..] == REGISTERED_SUFFIX
  {
    REGISTERED_PREFIX + name + REGISTERED_SUFFIX
  }

  /**
   * An incoming message: a bot command (its name without the slash, and the
   * whitespace-separated words after it), plain text, or anything else.
   */
  datatype Message = Command(name: string, args: seq<string>) | Text(body: string) | NonText

  datatype Update = Update(uid: Uid, username: Option<string>, message: Message)

  /** What a conversation callback returns: REGISTER, ADDING_TASK or END. */
  datatype Next = Register | AddingTask | End

  /** The handler an update reaches, or none. */
  datatype Handler =
    | StartHandler | ShowTaskHandler | CompleteHandler
    | RegisterEntry | RegisterState
    | AddTaskEntry | AddingTaskState | DoneTaskFallback
    | NoHandler

  /**
   * The first handler, in registration order, that accepts the message, given
   * whether the user is in REGISTER and whether in ADDING_TASK.  An active
   * conversation only looks at its state handler (non-command text) and its
   * fallbacks; an inactive one only at its entry point.
   */
  function FirstMatch(m: Message, registering: bool, adding: bool): (h: Handler)
    ensures h == StartHandler <==> m.Command? && m.name == "start"
    ensures h == ShowTaskHandler <==> m.Command? && m.name == "showtask"
    ensures h == CompleteHandler <==> m.Command? && m.name == "complete"
    ensures h == RegisterEntry <==> m.Command? && m.name == "register" && !registering
    ensures h == RegisterState <==> m.Text? && registering
    ensures h == AddTaskEntry <==> m.Command? && m.name == "addtask" && !adding
    ensures h == AddingTaskState <==> m.Text? && !registering && adding
    ensures h == DoneTaskFallback <==> m.Command? && m.name == "donetask" && adding
  {
    match m
    case Command(name, _) =>
      if name == "start" then StartHandler
      else if name == "showtask" then ShowTaskHandler
      else if name == "complete" then CompleteHandler
      else if !registering && name == "register" then RegisterEntry
      else if !adding && name == "addtask" then AddTaskEntry
      else if adding && name == "donetask" then DoneTaskFallback
      else NoHandler
    case Text(_) =>
      if registering then RegisterState
      else if adding then AddingTaskState
      else NoHandler
    case NonText => NoHandler
  }

  /** `effective_user.username or "no_username"`: an absent or empty username becomes the sentinel. */
  function UsernameOrDefault(username: Option<string>): (r: string)
    ensures r != ""
    ensures username.Some? && username.value != "" ==> r == username.value
    ensures !(username.Some? && username.value != "") ==> r == NO_USERNAME
  {
    if username.Some? && username.value != "" then username.value else NO_USERNAME
  }

  /** A conversation's users after a callback of `uid` returned `next`: END leaves, a state stays or enters. */
  function AfterCallback(active: set<Uid>, uid: Uid, next: Next): (r: set<Uid>)
    ensures uid in r <==> next != End
    ensures forall v :: v != uid ==> (v in r <==> v in active)
  {
    if next == End then active - {uid} else active + {uid}
  }

  class Bot {
    const store: Store
    /** Users the registration conversation holds in REGISTER. */
    var registering: set<Uid>
    /** Users the task conversation holds in ADDING_TASK. */
    var adding: set<Uid>

    /** Only users without a profile are ever held in REGISTER. */
    ghost predicate Valid()
      reads this, store
    {
      store.Valid() && forall v :: v in registering ==> v !in store.users
    }

    constructor (store: Store)
      requires store.Valid()
      ensures Valid() && this.store == store
      ensures registering == {} && adding == {}
    {
      this.store := store;
      registering := {};
      adding := {};
    }

    ghost function Selected(u: Update): Handler
      reads this
    {
      FirstMatch(u.message, u.uid in registering, u.uid in adding)
    }

    /** `start`: a name prompt and REGISTER for an unknown user, welcome-back and END for a known one. */
    method Start(uid: Uid) returns (reply: string, next: Next)
      ensures uid !in store.users ==> reply == WELCOME_PROMPT && next == Register
      ensures uid in store.users ==> reply == WELCOME_BACK && next == End
    {
      if store.GetUser(uid).None? {
        reply, next := WELCOME_PROMPT, Register;
      } else {
        reply, next := WELCOME_BACK, End;
      }
    }

    /** `save_name`: the message text, verbatim, becomes the user's name; the flow ends. */
    method SaveName(uid: Uid, name: string, username: Option<string>, now: Clock) returns (reply: string, next: Next)
      requires store.Valid()
      modifies store
      ensures store.Valid()
      ensures store.users == old(store.users)[uid := User(name, UsernameOrDefault(username), now)]
      ensures store.tasks == old(store.tasks) && store.nextId == old(store.nextId)
      ensures reply == RegisteredReply(name) && next == End
    {
      store.RegisterUser(uid, name, UsernameOrDefault(username), now);
      reply, next := RegisteredReply(name), End;
    }

    /** `begin_task`: instructions, and ADDING_TASK. */
    method BeginTask() returns (reply: string, next: Next)
      ensures reply == ADD_TASK_PROMPT && next == AddingTask
    {
      reply, next := ADD_TASK_PROMPT, AddingTask;
    }

    /** `store_task`: the text becomes one new pending task of `uid`; the flow stays in ADDING_TASK. */
    method StoreTask(uid: Uid, text: string, now: Clock) returns (reply: string, next: Next)
      requires store.Valid()
      modifies store
      ensures store.Valid()
      ensures store.tasks == old(store.tasks) + [Task(old(store.nextId), uid, text, now, now, Pending)]
      ensures store.users == old(store.users) && store.nextId == old(store.nextId) + 1
      ensures store.GetTasks(uid) == old(store.GetTasks(uid)) + [store.tasks[|store.tasks| - 1]]
      ensures forall v :: v != uid ==> store.GetTasks(v) == old(store.GetTasks(v))
      ensures TasksKept(old(store.tasks), store.tasks)
      ensures reply == TASK_ADDED && next == AddingTask
    {
      store.AddTask(uid, text, now);
      reply, next := TASK_ADDED, AddingTask;
    }

    /** `done`: the task flow ends. */
    method Done() returns (reply: string, next: Next)
      ensures reply == DONE_ADDING && next == End
    {
      reply, next := DONE_ADDING, End;
    }

    /** `show`: the numbered listing of the user's own tasks. */
    method Show(uid: Uid) returns (reply: string)
      ensures reply == TaskListReply(store.GetTasks(uid))
      ensures reply == NO_TASKS <==> store.GetTasks(uid) == []
    {
      var t := store.GetTasks(uid);
      reply := TaskListReply(t);
    }

    /**
     * `complete`: `/complete n` completes the task the listing shows as number
     * `n` (Python indexing, so `n <= 0` counts from the end); any failure
     * gives the usage reply and changes nothing.
     */
    method Complete(uid: Uid, args: seq<string>, now: Clock) returns (reply: string)
      requires store.Valid()
      modifies store
      ensures store.Valid()
      ensures store.users == old(store.users) && store.nextId == old(store.nextId)
      ensures var listed := old(store.GetTasks(uid));
        match ResolveComplete(args, |listed|)
        case None => reply == COMPLETE_USAGE && store.tasks == old(store.tasks)
        case Some(k) =>
          && reply == TASK_COMPLETED
          && store.tasks == MarkCompleted(old(store.tasks), listed[k].id, now)
          && store.GetTasks(uid) == listed[k := CompletedRow(listed[k], now)]
      ensures forall v :: v != uid ==> store.GetTasks(v) == old(store.GetTasks(v))
      ensures TasksKept(old(store.tasks), store.tasks)
    {
      if |args| == 0 {
        return COMPLETE_USAGE;
      }
      var n := ParseInt(args[0]);
      if n.None? {
        return COMPLETE_USAGE;
      }
      var t := store.GetTasks(uid);
      var idx := PyIndex(|t|, n.value - 1);
      if idx.None? {
        return COMPLETE_USAGE;
      }
      var target := t[idx.value];
      assert target in store.tasks;
      ghost var before := store.tasks;
      store.CompleteTask(target.id, now);
      OwnedByMarkCompleted(before, target.id, now, uid);
      MarkCompletedUniqueAt(t, idx.value, now);
      forall v | v != uid
        ensures store.GetTasks(v) == OwnedBy(before, v)
      {
        MarkCompletedOtherOwner(before, target, now, v);
      }
      reply := TASK_COMPLETED;
    }
    /**
     * One update, handled by the first matching handler.  A plain command
     * handler drops the state its callback returns; a conversation records it.
     */
    method Process(u: Update, now: Clock) returns (reply: Option<string>)
      requires Valid()
      modifies this, store
      ensures Valid()
      ensures reply == match old(Selected(u))
        case StartHandler => Some(if u.uid in old(store.users) then WELCOME_BACK else WELCOME_PROMPT)
        case RegisterEntry => Some(if u.uid in old(store.users) then WELCOME_BACK else WELCOME_PROMPT)
        case ShowTaskHandler => Some(old(TaskListReply(store.GetTasks(u.uid))))
        case CompleteHandler =>
          Some(if ResolveComplete(u.message.args, |old(store.GetTasks(u.uid))|).Some? then TASK_COMPLETED else COMPLETE_USAGE)
        case RegisterState => Some(RegisteredReply(u.message.body))
        case AddTaskEntry => Some(ADD_TASK_PROMPT)
        case AddingTaskState => Some(TASK_ADDED)
        case DoneTaskFallback => Some(DONE_ADDING)
        case NoHandler => None
      ensures registering == match old(Selected(u))
        case RegisterEntry => if u.uid in old(store.users) then old(registering) else old(registering) + {u.uid}
        case RegisterState => old(registering) - {u.uid}
        case _ => old(registering)
      ensures adding == match old(Selected(u))
        case AddTaskEntry => old(adding) + {u.uid}
        case DoneTaskFallback => old(adding) - {u.uid}
        case _ => old(adding)
      ensures store.users == if old(Selected(u)) == RegisterState
        then old(store.users)[u.uid := User(u.message.body, UsernameOrDefault(u.username), now)]
        else old(store.users)
      ensures store.tasks == match old(Selected(u))
        case AddingTaskState => old(store.tasks) + [Task(old(store.nextId), u.uid, u.message.body, now, now, Pending)]
        case CompleteHandler =>
          (match ResolveComplete(u.message.args, |old(store.GetTasks(u.uid))|)
           case Some(k) => MarkCompleted(old(store.tasks), old(store.GetTasks(u.uid))[k].id, now)
           case None => old(store.tasks))
        case _ => old(store.tasks)
      ensures store.nextId == old(store.nextId) + (if old(Selected(u)) == AddingTaskState then 1 else 0)
      // Nothing that belongs to another user changes.
      ensures forall v :: v != u.uid ==> (v in registering <==> v in old(registering)) && (v in adding <==> v in old(adding))
      ensures forall v :: v != u.uid ==> store.GetTasks(v) == old(store.GetTasks(v))
      // A stored profile is never replaced: a registered user cannot re-enter REGISTER.
      ensures forall v :: v in old(store.users) ==> v in store.users && store.users[v] == old(store.users)[v]
      // Tasks are never removed, renumbered or reopened.
      ensures TasksKept(old(store.tasks), store.tasks)
    {
      var next: Next;
      var text: string;
      match FirstMatch(u.message, u.uid in registering, u.uid in adding) {
        case StartHandler =>
          text, next := Start(u.uid);
          reply := Some(text);
        case ShowTaskHandler =>
          text := Show(u.uid);
          reply := Some(text);
        case CompleteHandler =>
          text := Complete(u.uid, u.message.args, now);
          reply := Some(text);
        case RegisterEntry =>
          text, next := Start(u.uid);
          registering := AfterCallback(registering, u.uid, next);
          reply := Some(text);
        case RegisterState =>
          text, next := SaveName(u.uid, u.message.body, u.username, now);
          registering := AfterCallback(registering, u.uid, next);
          reply := Some(text);
        case AddTaskEntry =>
          text, next := BeginTask();
          adding := AfterCallback(adding, u.uid, next);
          reply := Some(text);
        case AddingTaskState =>
          text, next := StoreTask(u.uid, u.message.body, now);
          adding := AfterCallback(adding, u.uid, next);
          reply := Some(text);
        case DoneTaskFallback =>
          text, next := Done();
          adding := AfterCallback(adding, u.uid, next);
          reply := Some(text);
        case NoHandler =>
          reply := None;
      }
    }
  }
}
