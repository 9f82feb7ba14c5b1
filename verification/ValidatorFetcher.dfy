/** The fields of the fetcher that guard appended bytes, updated in place as the fetcher does. */
module ValidatorFetcher {
  import opened Base
  import V = Validators

  class Guard {
    var ranged: bool
    var reprobe: bool
    var pinned: bool
    var unknown: bool
    var fallback: bool
    var ifRange: string
    var size: nat
    var conns: nat
    var got: nat
    var completed: bool

    function Value(): V.Fetch
      reads this
    {
      V.Fetch(ranged, reprobe, pinned, unknown, fallback, ifRange, size, conns, got, completed)
    }

    constructor (f: V.Fetch)
      ensures Value() == f
    {
      ranged, reprobe, pinned, unknown, fallback := f.ranged, f.reprobe, f.pinned, f.unknown, f.fallback;
      ifRange, size, conns, got, completed := f.ifRange, f.size, f.conns, f.got, f.completed;
    }

    /** Without range support the connection starts over; with it, it keeps its place. */
    method ResetConnectionForRestart()
      modifies this`got, this`completed
      ensures Value() == V.Reset(old(Value()))
    {
      if ranged {
        return;
      }
      got := 0;
      completed := false;
    }

    method ResumeConnection()
      modifies this`got, this`completed
      ensures Value() == V.Retried(old(Value()))
    {
      if !V.HasPrefix(Value()) {
        ResetConnectionForRestart();
      }
    }

    /** What an attempt decides before it sends a request. */
    method PrepareAttempt(start: nat, asked: Option<nat>) returns (q: V.Req)
      modifies this`got, this`completed, this`pinned
      ensures Value() == V.Prepared(old(Value()))
      ensures q == V.Request(old(Value()), start, asked)
    {
      ResumeConnection();
      var hasPrefix := V.HasPrefix(Value());
      var probe := V.CanProbe(Value());
      var restart := unknown;
      if unknown || (hasPrefix && !probe) {
        ResetConnectionForRestart();
        pinned := false;
        restart := true;
      }
      if probe {
        q := V.Req(got, Some(size - 1), true, true, ifRange, restart);
      } else if ranged {
        var guard := "";
        if pinned || fallback {
          guard := ifRange;
        }
        q := V.Req(start, asked, true, false, guard, restart);
      } else {
        q := V.Req(0, None, false, false, "", restart);
      }
    }

    method RestartSequentialDownload(validator: string)
      modifies this
      ensures Value() == V.Restarted(old(Value()), validator)
    {
      ranged := false;
      reprobe := true;
      pinned := false;
      ifRange := validator;
      ResetConnectionForRestart();
    }

    /** A 200 to a range request may only be taken by the primary while it is alone. */
    method FallbackToSequentialDownload(c: nat, validator: string) returns (ok: bool)
      modifies this
      ensures ok <==> !old(ranged) || (c == 0 && old(conns) == 1)
      ensures Value() == if ok && old(ranged) then V.Restarted(old(Value()), validator) else old(Value())
    {
      if !ranged {
        return true;
      }
      if c != 0 || conns != 1 {
        return false;
      }
      ranged := false;
      reprobe := true;
      pinned := false;
      ifRange := validator;
      ResetConnectionForRestart();
      ok := true;
    }

    method ResizeSequentialResource(length: nat)
      modifies this`size, this`unknown
      ensures Value() == old(Value()).(size := length, unknown := false)
    {
      size := length;
      unknown := false;
    }

    method BeginUnknownSizeSequentialResource()
      modifies this
      ensures Value() == old(Value()).(size := 0, unknown := true, ifRange := "", pinned := false)
    {
      size := 0;
      unknown := true;
      ifRange := "";
      pinned := false;
    }

    /** Taking the head of a 200 answer. */
    method TakeFull(c: nat, q: V.Req, validator: string, length: Option<nat>) returns (ok: bool, restart: bool)
      modifies this
      ensures var v := V.Take200(old(Value()), c, q, validator, length);
        Value() == v.f && ok == v.Accept? && (ok ==> restart == v.restart)
    {
      restart := q.restart;
      if q.ranged {
        if c == 0 {
          fallback := false;
        }
        if q.probe {
          RestartSequentialDownload(validator);
        } else {
          ok := FallbackToSequentialDownload(c, validator);
          if !ok {
            return;
          }
        }
        restart := true;
      }
      if !q.ranged && reprobe {
        ifRange := validator;
      }
      ok := true;
      if !ranged {
        if restart {
          if length.Some? {
            ResizeSequentialResource(length.value);
          } else {
            BeginUnknownSizeSequentialResource();
          }
        } else if size > 0 && length.Some? && length.value != size {
          ok := false;
        }
      }
    }

    /** Stopping the Resolve stream: its prefix becomes the start of the file. */
    method CommitResolveTakeover(c: nat, start: nat, prefetched: nat) returns (ok: bool)
      modifies this`fallback, this`pinned
      ensures var v := V.TakenOver(old(Value()), c, start, prefetched); Value() == v.f && ok == v.Accept?
    {
      if c != 0 || !fallback {
        return true;
      }
      fallback := false;
      if prefetched < start || prefetched > size {
        return false;
      }
      if ifRange != "" {
        pinned := true;
      }
      ok := true;
    }

    /** The origin recovered range support: the prefix becomes the start of a ranged chunk. */
    method RecoverRange()
      modifies this
      ensures Value() == old(Value()).(ranged := true, reprobe := false, pinned := true, unknown := false)
    {
      ranged := true;
      reprobe := false;
      pinned := true;
      unknown := false;
    }

    method ResolveOpenEndedRange(q: V.Req, total: nat)
      modifies this`size
      ensures Value() == if q.asked.None? then old(Value()).(size := total) else old(Value())
    {
      if q.asked.None? {
        size := total;
      }
    }

    /** Taking the head of a 206 answer for bytes start-end/total. */
    method TakePartial(c: nat, q: V.Req, start: nat, end: nat, total: nat, prefetched: nat) returns (ok: bool)
      modifies this
      ensures var v := V.Take206(old(Value()), c, q, start, end, total, prefetched);
        Value() == v.f && ok == v.Accept?
    {
      if !V.Answers(Value(), q, start, end, total) {
        return false;
      }
      ResolveOpenEndedRange(q, total);
      ok := CommitResolveTakeover(c, q.start, prefetched);
      if ok && q.probe {
        RecoverRange();
      }
    }
  }
}
