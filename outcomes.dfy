/**
  Values the farm hands back to its callers: the confirmation messages of the
  animal operations and the typed failures that the source raises as
  exceptions or turns into error responses.
 */
module Outcomes {

  /** `None` stands for JavaScript's `null`/`undefined`. */
  datatype Option<T> = None | Some(value: T)

  /** A successful value or the failure the source would throw. */
  datatype Result<T> = Ok(value: T) | Err(error: Failure)

  /** What an animal was asked to perform. */
  datatype Task = Duty | Action

  /** Why an animal cannot perform it. */
  datatype Reason = Hungry | Sleepy

  /** The success messages; each carries the animal's name as the source's text does. */
  datatype Message =
    | NotHungry(name: string)
    | Eating(name: string)
    | NotSleepy(name: string)
    | Sleeping(name: string)
    | NowHungry(name: string, hungry: bool)
    | NowSleepy(name: string, sleepy: bool)
    | DutyIs(name: string, duty: string)
    | PerformingDuty(name: string, duty: string)
    | ActionIs(name: string, action: string)
    | Flying(name: string)
    | Crowing(name: string)
    | Barking(name: string)
    | ChasingSheep(name: string)
    | PerformingAction(name: string, action: string)
    | Removed(name: string)

  /** The failures, one constructor per distinct error text of the source. */
  datatype Failure =
    | NoDutyAssigned(name: string)
    | NoActionAssigned(name: string)
    | CannotPerform(name: string, task: Task, reason: Reason)
    | NotAValidAction(action: string, typeName: string)
    | CannotFly(name: string)
    | CannotCrow(name: string)
    | CannotBark(name: string)
    | CannotChaseSheep(name: string)
    | NameRequired
    | AlreadyExists(name: string)
    | NotFoundOnFarm(name: string)
    | NotFound(name: string)
}
