/** What one effectful call of an executor can do to the process that makes it.

    Every external call and every durable write in the modelled code can be confirmed, can
    raise, or can be the last thing the process does. A method that propagates the failure of
    each call therefore has one exit for every point at which the process may die, and its
    postconditions hold at all of them. */
module Effects {

  datatype Option<+T> = None | Some(value: T)

  /** The exceptions the callers tell apart. `Unavailable` is a read-only observation that was
      not confirmed; `Rejected` is a submission proved to have been refused. */
  datatype Fault = Refused | Unconfirmed | Unavailable | Rejected

  datatype Outcome<+T> = Done(value: T) | Raised(fault: Fault) | Died
  {
    predicate IsFailure() {
      !Done?
    }

    function PropagateFailure<U>(): Outcome<U>
      requires IsFailure()
    {
      if Raised? then Raised(fault) else Died
    }

    function Extract(): T
      requires Done?
    {
      value
    }
  }

  /** A receipt written in place: the file appears before its content does. */
  datatype File<+T> = Absent | Torn | Written(value: T)

  /** Some way of failing: the caller either sees an exception or no longer exists. */
  method Lose<T>(fault: Fault) returns (o: Outcome<T>)
    ensures o == Raised(fault) || o == Died
  {
    if * {
      o := Raised(fault);
    } else {
      o := Died;
    }
  }

  /** Exclusive atomic publication: a linked receipt is complete and is never replaced. */
  method Publish<T>(file: Option<T>, value: T) returns (result: Option<T>, o: Outcome<()>)
    ensures file.Some? ==> result == file && !o.Done?
    ensures file.None? ==> (result == None || result == Some(value)) && o != Raised(Refused)
    ensures o.Done? ==> result == Some(value)
  {
    result := file;
    if file.Some? {
      o := Raised(Refused);
    } else if * {
      result := Some(value);
      if * {
        o := Done(());
      } else {
        o := Lose(Unconfirmed);
      }
    } else {
      o := Lose(Unconfirmed);
    }
  }

  /** Exclusive creation followed by the write: a crash can leave the file without content. */
  method Write<T>(file: File<T>, value: T) returns (result: File<T>, o: Outcome<()>)
    ensures !file.Absent? ==> result == file && !o.Done?
    ensures file.Absent? ==> result in {Absent, Torn, Written(value)} && o != Raised(Refused)
    ensures o.Done? ==> result == Written(value)
  {
    result := file;
    if !file.Absent? {
      o := Raised(Refused);
    } else if * {
      result := Written(value);
      if * {
        o := Done(());
      } else {
        o := Lose(Unconfirmed);
      }
    } else {
      if * {
        result := Torn;
      }
      o := Lose(Unconfirmed);
    }
  }
}
