/** What a selector means to its users: a map from descriptor to interest and attachment. */
module SelectorTable {

  datatype Interest = Interest(read: bool, write: bool)

  const OP_NOOP := Interest(false, false)
  const OP_READ := Interest(true, false)
  const OP_WRITE := Interest(false, true)

  /** ITEMS_MAX_SIZE: FD_SETSIZE of the platform. */
  const ITEMS_MAX_SIZE: nat := 1024

  /** `selector_status`; `OutOfBounds` stands for a use of memory past the array, which C leaves undefined. */
  datatype Status = Success | NoMemory | MaxFd | IllegalArgument | FdInUse | OutOfBounds

  datatype Slot<T> = Slot(interest: Interest, data: T)

  type Table<T> = map<int, Slot<T>>

  predicate ValidFd(fd: int) { 0 <= fd < ITEMS_MAX_SIZE }

  function Register<T>(t: Table<T>, fd: int, interest: Interest, data: T): (Status, Table<T>) {
    if !ValidFd(fd) then (IllegalArgument, t)
    else if fd in t then (FdInUse, t)
    else (Success, t[fd := Slot(interest, data)])
  }

  function Unregister<T>(t: Table<T>, fd: int): (Status, Table<T>) {
    if !ValidFd(fd) || fd !in t then (IllegalArgument, t) else (Success, t - {fd})
  }

  function SetInterest<T>(t: Table<T>, fd: int, interest: Interest): (Status, Table<T>) {
    if !ValidFd(fd) || fd !in t then (IllegalArgument, t)
    else (Success, t[fd := Slot(interest, t[fd].data)])
  }
}
