/**
  `GetUserProfileUseCase` from src/usecases/get-user-profile.ts: look a user up
  by id through the injected repository and either hand back that user or
  raise `ResourceNotFoundError`. The use case holds its repository read-only
  and keeps no state of its own, so it is an immutable value here and
  `Execute` a function of it. `User` is the storage layer's record; nothing
  about it is inspected, so it stays a type parameter.
*/
module GetUserProfile {
  import opened Wrappers
  import opened DomainErrors

  /** The users a repository can find, by id. */
  datatype UsersRepository<User> = UsersRepository(users: map<string, User>)
  {
    /** `findById(id)`: the stored user, or null when there is none. */
    function FindById(id: string): (r: Option<User>)
      ensures r.Some? <==> id in users
      ensures r.Some? ==> r.value == users[id]
    {
      if id in users then Some(users[id]) else None
    }
  }

  datatype GetUserProfileRequest = GetUserProfileRequest(userId: string)

  datatype GetUserProfileResponse<User> = GetUserProfileResponse(user: User)

  /** The use case with its constructor-injected dependency. */
  datatype GetUserProfileUseCase<User> = GetUserProfileUseCase(usersRepository: UsersRepository<User>)
  {
    /**
      `execute({ userId })`: one lookup, then the user or `ResourceNotFoundError`
      (the only `DomainError` there is, so a failure is always that one).
    */
    function Execute(request: GetUserProfileRequest): (r: Result<GetUserProfileResponse<User>, DomainError>)
      // succeeds exactly when the repository holds the requested id
      ensures r.Success? <==> request.userId in usersRepository.users
      // and then returns that very user, untouched
      ensures r.Success? ==> r.value.user == usersRepository.users[request.userId]
    {
      var user := usersRepository.FindById(request.userId);
      if user.None? then Failure(ResourceNotFound) else Success(GetUserProfileResponse(user.value))
    }
  }

  /**
    `Execute` observes its repository only through `findById` on the requested
    id: two use cases whose repositories answer that one query alike give the
    same outcome, whatever else they hold. With one repository this is also
    "two calls with the same id give the same outcome".
  */
  lemma ExecuteObservesOnlyRequestedId<User>(
    u1: GetUserProfileUseCase<User>, u2: GetUserProfileUseCase<User>, request: GetUserProfileRequest)
    requires u1.usersRepository.FindById(request.userId) == u2.usersRepository.FindById(request.userId)
    ensures u1.Execute(request) == u2.Execute(request)
  {
  }
}
