/** Exceptions of the source, as outcomes. */
module Exceptions {
  datatype Error = InvalidArgument | LengthError | LogicError | Overflow | RuntimeError | SystemError

  datatype Outcome = Done | Threw(error: Error)
}

/** The system calls, each moving the kernel as `Kernel` says and handing out its answer. */
module Host {
  import opened Jobs
  import opened Kernel

  const NS_PER_SECOND: nat := 1_000_000_000

  class Host {
    var os: Os

    constructor (os: Os)
      ensures this.os == os
    {
      this.os := os;
    }

    method Log(r: Record)
      modifies this
      ensures os == Note(old(os), r)
    {
      os := Note(os, r);
    }

    /** `steady_clock::now()`. */
    method Now() returns (t: Time)
      modifies this
      ensures os == Tick(old(os)) && t == os.now
    {
      os := Tick(os);
      t := os.now;
    }

    /** `timerfd_settime` with a relative time, which the kernel takes only in normalised form;
        all zero disarms. */
    method SetTime(sec: nat, nsec: nat) returns (ok: bool)
      requires nsec < NS_PER_SECOND
      modifies this
      ensures ok == NextArm(old(os))
      ensures os == SetTimer(old(os), if sec == 0 && nsec == 0 then Disarmed
                                      else Armed(old(os).now + sec * NS_PER_SECOND + nsec, old(os).now))
    {
      ok := NextArm(os);
      os := SetTimer(os, if sec == 0 && nsec == 0 then Disarmed else Armed(os.now + sec * NS_PER_SECOND + nsec, os.now));
    }

    /** `launchProcess`: fork with three pipes, in a process group of its own. */
    method Launch(job: JobId) returns (a: Launch)
      modifies this
      ensures a == NextLaunch(old(os)) && os == Spawn(old(os), job, a)
    {
      a := NextLaunch(os);
      os := Spawn(os, job, a);
    }

    /** `epoll_ctl(EPOLL_CTL_ADD)`. */
    method EpollAdd() returns (ok: bool)
      modifies this
      ensures ok == NextWatch(old(os)) && os == Watch(old(os))
    {
      ok := NextWatch(os);
      os := Watch(os);
    }

    method CloseFd(fd: Fd)
      modifies this
      ensures os == Close(old(os), fd)
    {
      os := Close(os, fd);
    }

    /** SIGKILL to the group and a blocking `waitpid`. */
    method KillAndReapProcess(pid: Pid)
      modifies this
      ensures os == KillAndReap(old(os), pid)
    {
      os := KillAndReap(os, pid);
    }

    method ReadFd(fd: Fd) returns (a: ReadAnswer)
      modifies this
      ensures a == NextRead(old(os)) && os == Read(old(os), fd)
    {
      a := NextRead(os);
      os := Read(os, fd);
    }

    /** `waitpid(pid, WNOHANG)`. */
    method WaitPid(pid: Pid) returns (a: PollAnswer)
      modifies this
      ensures a == NextPoll(old(os), pid) && os == Poll(old(os), pid)
    {
      a := NextPoll(os, pid);
      os := Poll(os, pid);
    }

    /** `waitpid(-1, WNOHANG)`. */
    method WaitAny() returns (a: ReapAnswer)
      modifies this
      ensures a == NextReap(old(os)) && os == Reap(old(os))
    {
      a := NextReap(os);
      os := Reap(os);
    }

    /** `kill(-group, signal)`; job and reason are for the log only. */
    method Kill(group: Pid, signal: Signal, job: JobId, reason: Reason) returns (a: KillAnswer)
      modifies this
      ensures a == NextKill(old(os)) && os == KillOnce(old(os), group, job, signal, reason)
    {
      a := NextKill(os);
      os := KillOnce(os, group, job, signal, reason);
    }

    /** Read the signal descriptor until it is empty. */
    method ReadSignalFd()
      modifies this
      ensures os == ReadSignals(old(os))
    {
      os := ReadSignals(os);
    }
  }
}
