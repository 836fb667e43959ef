/** The objects behind ThreadPoolProtocol.Shared: tasks linked through next_, with the pool's
    head and rear pointers.  Each method is one critical section of lock_ and is proved to be
    the corresponding function of the protocol on the linked list's contents. */
module ThreadPools {
  import opened ThreadPoolProtocol

  class ThreadTask {
    const id: Task
    var next_: ThreadTask?

    constructor (id: Task)
      ensures this.id == id && next_ == null
    {
      this.id := id;
      next_ := null;
    }
  }

  function Ids(queue: seq<ThreadTask>): (ids: seq<Task>)
    ensures |ids| == |queue| && forall i :: 0 <= i < |ids| ==> ids[i] == queue[i].id
  {
    seq(|queue|, i requires 0 <= i < |queue| => queue[i].id)
  }

  /** The number of workers NewInstance asks for: a fifth of the limit, but at least one. */
  function InitialThreads(limit: nat): (init: nat)
    requires limit > 0
    ensures 1 <= init <= limit && ((init == 1 && limit < 5) || 5 * init <= limit < 5 * init + 5)
  {
    var init := if limit / 5 < 1 then 1 else limit / 5;
    if init < limit then init else limit
  }

  class ThreadPool {
    var numThread_: nat
    var runThread_: nat
    const limitThread_: nat
    var numTasks_: nat
    var tasksHead_: ThreadTask?
    var tasksRear_: ThreadTask?
    ghost var queue: seq<ThreadTask>

    ghost predicate Valid()
      reads this, queue
    {
      && (forall i, j :: 0 <= i < j < |queue| ==> queue[i] != queue[j])
      && (forall i :: 0 <= i < |queue| - 1 ==> queue[i].next_ == queue[i + 1])
      && (queue == [] ==> tasksHead_ == null && tasksRear_ == null)
      && (queue != [] ==>
            tasksHead_ == queue[0] && tasksRear_ == queue[|queue| - 1] && queue[|queue| - 1].next_ == null)
    }

    ghost function View(): Shared
      reads this
    {
      Shared(Ids(queue), numTasks_, runThread_, numThread_, limitThread_)
    }

    constructor (init: nat, limit: nat)
      requires init <= limit
      ensures Valid() && queue == [] && View() == Start(init, limit).sh
    {
      numThread_, runThread_, limitThread_, numTasks_ := init, 0, limit, 0;
      tasksHead_, tasksRear_, queue := null, null, [];
    }

    /** PostTask between Lock and Signal.  A task may be posted when it is not queued. */
    method Append(task: ThreadTask, created: bool) returns (started: bool)
      requires Valid() && task !in queue && task.next_ == null
      modifies this, task, queue
      ensures Valid() && queue == old(queue) + [task]
      ensures View() == Appended(old(View()), task.id, created)
      ensures started <==> numThread_ != old(numThread_)
    {
      numTasks_ := Plus(numTasks_, 1);
      if tasksRear_ == null {
        tasksHead_, tasksRear_ := task, task;
      } else {
        tasksRear_.next_ := task;
        tasksRear_ := task;
      }
      queue := queue + [task];
      started := false;
      if numThread_ < limitThread_ && numTasks_ > Minus(numThread_, runThread_) {
        if created {
          var before := numThread_;
          numThread_ := Plus(numThread_, 1);
          started := numThread_ != before;
        }
      }
    }

    /** The common part of the worker's two critical sections: unlink the head. */
    method Unlink() returns (task: ThreadTask?)
      requires Valid()
      modifies this, queue
      ensures Valid() && unchanged(`runThread_, `numThread_)
      ensures old(queue) == [] ==> task == null && queue == [] && numTasks_ == old(numTasks_)
      ensures old(queue) != [] ==>
                task == old(queue)[0] && task.next_ == null && queue == old(queue)[1..]
                && numTasks_ == Minus(old(numTasks_), 1)
    {
      task := null;
      if tasksHead_ != null {
        numTasks_ := Minus(numTasks_, 1);
        task := tasksHead_;
        tasksHead_ := task.next_;
        if tasksHead_ == null {
          tasksRear_ := null;
        }
        task.next_ := null;
        queue := queue[1..];
      }
    }

    /** Service: take a task to run. */
    method Take() returns (task: ThreadTask?)
      requires Valid()
      modifies this, queue
      ensures Valid()
      ensures old(queue) == [] ==> task == null && queue == [] && View() == old(View())
      ensures old(queue) != [] ==>
                task == old(queue)[0] && task.next_ == null && queue == old(queue)[1..]
                && View() == Taken(old(View()))
    {
      task := Unlink();
      if task != null {
        runThread_ := Plus(runThread_, 1);
      }
    }

    /** Service: the task has been run. */
    method CountDown()
      requires Valid()
      modifies this
      ensures Valid() && queue == old(queue) && View() == CountedDown(old(View()))
    {
      runThread_ := Minus(runThread_, 1);
    }

    /** Service, cleanup after exit: take tasks one by one and discard them, in queue order. */
    method CleanUp() returns (discarded: seq<ThreadTask>)
      requires Valid()
      modifies this, queue
      ensures Valid() && queue == []
      ensures discarded == old(queue)
    {
      ghost var all := queue;
      discarded := [];
      var task := Unlink();
      ghost var k := if task == null then 0 else 1;
      while task != null
        invariant Valid() && k <= |all| && queue == all[k..]
        invariant task == null ==> k == |all| && discarded == all
        invariant task != null ==> k > 0 && task == all[k - 1] && discarded == all[..k - 1]
        decreases |all| - k, task != null
      {
        discarded := discarded + [task];
        task := Unlink();
        if task != null {
          k := k + 1;
        }
      }
    }

    /** The destructor's sweep over what is left. */
    method Sweep() returns (discarded: seq<ThreadTask>)
      requires Valid()
      modifies this
      ensures discarded == old(queue) && tasksHead_ == null
    {
      discarded := [];
      while tasksHead_ != null
        invariant |discarded| <= |queue| && discarded == queue[..|discarded|]
        invariant tasksHead_ == if |discarded| == |queue| then null else queue[|discarded|]
        invariant queue == old(queue)
        decreases |queue| - |discarded|
      {
        tasksRear_ := tasksHead_.next_;
        discarded := discarded + [tasksHead_];
        tasksHead_ := tasksRear_;
      }
    }
  }
}
