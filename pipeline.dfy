/**
  The use case and the error handler together: what a caller sees when
  `execute` throws and the error travels, unhandled, to the terminal handler.
*/
module Pipeline {
  import opened Wrappers
  import opened JsonValues
  import opened DomainErrors
  import opened ErrorHandler
  import opened GetUserProfile

  /**
    An unknown user id makes `execute` throw `ResourceNotFoundError`, and the
    handler answers it 500 with only the fixed message: no 404, and nothing of
    the id in the body.
  */
  lemma MissingUserIsAnsweredAsInternalError<User, Request>(
    useCase: GetUserProfileUseCase<User>, request: GetUserProfileRequest, nodeEnv: string, httpRequest: Request)
    requires request.userId !in useCase.usersRepository.users
    ensures useCase.Execute(request).Failure?
    ensures var reply := HandleError(nodeEnv, Domain(useCase.Execute(request).error), httpRequest).reply;
            && reply.status == InternalServerError
            && Get(reply.body, "message") == Some(JString(InternalMessage))
            && Strings(reply.body) == {"message", InternalMessage}
  {
  }
}
