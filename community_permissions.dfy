/** The community board's object permission `IsAuthorOrReadOnly`: anyone
    may read a post, only its author may change or delete it. */
module CommunityPermissions {

  /** `permissions.SAFE_METHODS`. */
  const SafeMethods: seq<string> := ["GET", "HEAD", "OPTIONS"]

  /** `request.user`: the anonymous user or a signed-in user with a primary key.
      Model instances compare equal by primary key; the anonymous user equals
      no stored user. */
  datatype RequestUser = Anonymous | Member(id: int)

  /** `has_object_permission(request, view, obj)` for a request with the given
      HTTP method and user on an object whose author has primary key `author`. */
  function HasObjectPermission(httpMethod: string, user: RequestUser, author: int): (granted: bool)
    ensures httpMethod in SafeMethods ==> granted
    ensures httpMethod !in SafeMethods ==> (granted <==> user == Member(author))
  {
    if httpMethod in SafeMethods then true
    else user == Member(author)
  }

  /** A read is granted whoever asks, the anonymous user included. */
  lemma ReadsAlwaysGranted(user: RequestUser, author: int)
    ensures HasObjectPermission("GET", user, author)
    ensures HasObjectPermission("HEAD", user, author)
    ensures HasObjectPermission("OPTIONS", user, author)
  {
  }

  /** A change is granted exactly to the author: the author may PUT and DELETE
      their post, another user and the anonymous user may not. */
  lemma WritesOnlyByAuthor(author: int, other: int)
    requires other != author
    ensures HasObjectPermission("PUT", Member(author), author)
    ensures HasObjectPermission("DELETE", Member(author), author)
    ensures !HasObjectPermission("PUT", Member(other), author)
    ensures !HasObjectPermission("DELETE", Member(other), author)
    ensures !HasObjectPermission("PATCH", Member(other), author)
    ensures !HasObjectPermission("PUT", Anonymous, author)
  {
    assert "PUT" != "GET" && "PUT" != "HEAD" && "PUT" != "OPTIONS";
    assert "DELETE" != "GET" && "DELETE" != "HEAD" && "DELETE" != "OPTIONS";
    assert "PATCH" != "GET" && "PATCH" != "HEAD" && "PATCH" != "OPTIONS";
  }
}
