/**
 Names shared by every module. Worker names are ordered strings and stand for their rank in that
 order; the other names are only told apart. Tasks and groups share one name space.
 */
module Types {
  datatype WorkerId = WorkerId(rank: int)
  datatype ContestId = ContestId(number: int)
  datatype TaskId = TaskId(number: int)

  datatype Option<+T> = None | Some(value: T)
}
