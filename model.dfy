/**
 * The blog's domain objects (`model/User.php`, `model/Post.php`,
 * `model/Comment.php`): plain objects with setters, and validators that
 * collect a field-to-message error array and throw a `ValidationException`
 * carrying it when, and only when, that array is not empty.
 *
 * A PHP NULL field is `None` (strings) or `null` (objects). Each validator
 * method builds its error array step by step as the source does and is
 * proved equal to a declarative error list (`RegisterErrors`,
 * `PostCreateErrors`, ...), whose contracts state field by field which
 * message is reported.
 */
module Model {
  import opened Wrappers
  import opened PhpString
  import opened PhpArray

  /** What a validator throws: the error array and the exception message. */
  datatype ValidationException = ValidationException(errors: Entries<string, string>, message: string)

  const UsernameTooShort := "Username must be at least 5 characters length"
  const PasswordTooShort := "Password must be at least 5 characters length"
  const UserNotValid := "user is not valid"
  const IdMandatory := "id is mandatory"
  const TitleMandatory := "title is mandatory"
  const ContentMandatory := "content is mandatory"
  const AuthorMandatory := "author is mandatory"
  const PostMandatory := "post is mandatory"
  const PostNotValid := "post is not valid"
  const CommentNotValid := "comment is not valid"

  /** The minimum length of a username and of a password. */
  const MinCredentialLength := 5
  /** The minimum length of a comment's trimmed content. */
  const MinCommentLength := 2

  /** `strlen` of a possibly NULL string: NULL has length 0. */
  function Strlen(s: Option<string>): nat {
    |s.GetOr("")|
  }

  /** `strlen(trim($s)) < 2`: a comment's content is too short. */
  predicate TooShortComment(content: Option<string>) {
    |Trim(content.GetOr(""))| < MinCommentLength
  }

  /** `strlen(trim($s)) == 0`: NULL, empty, or trim characters only. */
  predicate Blank(s: Option<string>) {
    Trim(s.GetOr("")) == []
  }

  /** A field is blank exactly when it is NULL or holds trim characters only (`"  \t"` is blank). */
  lemma BlankMeansOnlyTrimCharacters(s: Option<string>)
    ensures Blank(s) <==> s.None? || forall k :: 0 <= k < |s.value| ==> IsTrimChar(s.value[k])
  {
    TrimSpec(s.GetOr(""));
  }

  /** A guarded `$errors[key] = message` on a key not yet in the array. */
  function ErrorIf(cond: bool, key: string, message: string): (e: Entries<string, string>)
    ensures cond ==> e == [(key, message)]
    ensures !cond ==> e == []
  {
    if cond then [(key, message)] else []
  }

  /** `if (sizeof($errors) > 0) throw new ValidationException($errors, $message)`: `None` when nothing is thrown. */
  function Verdict(errors: Entries<string, string>, message: string): (thrown: Option<ValidationException>)
    ensures thrown.None? <==> errors == []
    ensures thrown.Some? ==> thrown.value.errors == errors && thrown.value.message == message
  {
    if |errors| > 0 then Some(ValidationException(errors, message)) else None
  }

  // ----------------------------------------------------------------------
  // The error lists

  /** The errors a user registration reports, in check order: username, then password. */
  function RegisterErrors(username: Option<string>, passwd: Option<string>): (errors: Entries<string, string>)
    ensures errors == [] <==> Strlen(username) >= MinCredentialLength && Strlen(passwd) >= MinCredentialLength
  {
    ErrorIf(Strlen(username) < MinCredentialLength, "username", UsernameTooShort)
      + ErrorIf(Strlen(passwd) < MinCredentialLength, "passwd", PasswordTooShort)
  }

  /** The errors a post creation reports, in check order: title, content, author. */
  function PostCreateErrors(title: Option<string>, content: Option<string>, hasAuthor: bool): (errors: Entries<string, string>)
    ensures errors == [] <==> !Blank(title) && !Blank(content) && hasAuthor
  {
    ErrorIf(Blank(title), "title", TitleMandatory)
      + ErrorIf(Blank(content), "content", ContentMandatory)
      + ErrorIf(!hasAuthor, "author", AuthorMandatory)
  }

  /** The errors a post update reports: `id` first when the id is unset, then the creation errors copied in. */
  function PostUpdateErrors(id: Option<string>, title: Option<string>, content: Option<string>, hasAuthor: bool)
    : (errors: Entries<string, string>)
    ensures errors == [] <==> id.Some? && PostCreateErrors(title, content, hasAuthor) == []
  {
    ErrorIf(id.None?, "id", IdMandatory) + PostCreateErrors(title, content, hasAuthor)
  }

  /** The errors a comment creation reports, in check order: content, author, post. */
  function CommentCreateErrors(content: Option<string>, hasAuthor: bool, hasPost: bool): (errors: Entries<string, string>)
    ensures errors == [] <==> !TooShortComment(content) && hasAuthor && hasPost
  {
    ErrorIf(TooShortComment(content), "content", ContentMandatory)
      + ErrorIf(!hasAuthor, "author", AuthorMandatory)
      + ErrorIf(!hasPost, "post", PostMandatory)
  }

  /** Looking a key up in one guarded error. */
  lemma GetErrorIf(cond: bool, key: string, message: string, k: string)
    ensures Get(ErrorIf(cond, key, message), k) == if cond && k == key then Some(message) else None
  {
  }

  /** Looking a key up in a list of errors followed by one more guarded error. */
  lemma GetThenError(errors: Entries<string, string>, cond: bool, key: string, message: string, k: string)
    ensures Get(errors + ErrorIf(cond, key, message), k) ==
      if Get(errors, k).Some? then Get(errors, k) else if cond && k == key then Some(message) else None
  {
    GetAppend(errors, ErrorIf(cond, key, message), k);
    GetErrorIf(cond, key, message, k);
  }

  /** Registration reports each field's message exactly when that field is too short, and nothing else. */
  lemma RegisterErrorsByField(username: Option<string>, passwd: Option<string>, k: string)
    ensures Get(RegisterErrors(username, passwd), k) ==
      if k == "username" && Strlen(username) < MinCredentialLength then Some(UsernameTooShort)
      else if k == "passwd" && Strlen(passwd) < MinCredentialLength then Some(PasswordTooShort)
      else None
  {
    GetErrorIf(Strlen(username) < MinCredentialLength, "username", UsernameTooShort, k);
    GetThenError(ErrorIf(Strlen(username) < MinCredentialLength, "username", UsernameTooShort),
                 Strlen(passwd) < MinCredentialLength, "passwd", PasswordTooShort, k);
  }

  /** Post creation reports title, content and author each exactly when that field fails, and nothing else. */
  lemma PostCreateErrorsByField(title: Option<string>, content: Option<string>, hasAuthor: bool, k: string)
    ensures Get(PostCreateErrors(title, content, hasAuthor), k) ==
      if k == "title" && Blank(title) then Some(TitleMandatory)
      else if k == "content" && Blank(content) then Some(ContentMandatory)
      else if k == "author" && !hasAuthor then Some(AuthorMandatory)
      else None
  {
    var t := ErrorIf(Blank(title), "title", TitleMandatory);
    var c := ErrorIf(Blank(content), "content", ContentMandatory);
    GetErrorIf(Blank(title), "title", TitleMandatory, k);
    GetThenError(t, Blank(content), "content", ContentMandatory, k);
    GetThenError(t + c, !hasAuthor, "author", AuthorMandatory, k);
  }

  /**
   * Post update reports `id` exactly when the id is unset, and every other
   * key exactly as post creation does.
   */
  lemma PostUpdateErrorsByField(id: Option<string>, title: Option<string>, content: Option<string>, hasAuthor: bool, k: string)
    ensures Get(PostUpdateErrors(id, title, content, hasAuthor), k) ==
      if k == "id" then (if id.None? then Some(IdMandatory) else None)
      else Get(PostCreateErrors(title, content, hasAuthor), k)
  {
    GetAppend(ErrorIf(id.None?, "id", IdMandatory), PostCreateErrors(title, content, hasAuthor), k);
    GetErrorIf(id.None?, "id", IdMandatory, k);
    if k == "id" {
      PostCreateErrorsByField(title, content, hasAuthor, k);
    }
  }

  /** Comment creation reports content, author and post each exactly when that field fails, and nothing else. */
  lemma CommentCreateErrorsByField(content: Option<string>, hasAuthor: bool, hasPost: bool, k: string)
    ensures Get(CommentCreateErrors(content, hasAuthor, hasPost), k) ==
      if k == "content" && TooShortComment(content) then Some(ContentMandatory)
      else if k == "author" && !hasAuthor then Some(AuthorMandatory)
      else if k == "post" && !hasPost then Some(PostMandatory)
      else None
  {
    var c := ErrorIf(TooShortComment(content), "content", ContentMandatory);
    var a := ErrorIf(!hasAuthor, "author", AuthorMandatory);
    GetErrorIf(TooShortComment(content), "content", ContentMandatory, k);
    GetThenError(c, !hasAuthor, "author", AuthorMandatory, k);
    GetThenError(c + a, !hasPost, "post", PostMandatory, k);
  }

  /** An update that passes implies a creation that passes. */
  lemma UpdatePassesOnlyIfCreatePasses(id: Option<string>, title: Option<string>, content: Option<string>, hasAuthor: bool)
    requires Verdict(PostUpdateErrors(id, title, content, hasAuthor), PostNotValid).None?
    ensures Verdict(PostCreateErrors(title, content, hasAuthor), PostNotValid).None?
  {
  }

  /** Exactly five bytes is long enough: the bound is `< 5`, and neither field is trimmed. */
  lemma FiveBytesAccepted(username: Option<string>, passwd: Option<string>)
    requires Strlen(username) == MinCredentialLength && Strlen(passwd) == MinCredentialLength
    ensures Verdict(RegisterErrors(username, passwd), UserNotValid).None?
  {
  }

  /** A short username and a short password are reported together, username first. */
  lemma BothCredentialsReported(username: Option<string>, passwd: Option<string>)
    requires Strlen(username) < MinCredentialLength && Strlen(passwd) < MinCredentialLength
    ensures Verdict(RegisterErrors(username, passwd), UserNotValid) ==
      Some(ValidationException([("username", UsernameTooShort), ("passwd", PasswordTooShort)], UserNotValid))
  {
    assert [("username", UsernameTooShort)] + [("passwd", PasswordTooShort)]
        == [("username", UsernameTooShort), ("passwd", PasswordTooShort)];
  }

  /** Copying the creation errors after the id error yields the update's error list. */
  lemma UpdateCopiesCreateErrors(id: Option<string>, title: Option<string>, content: Option<string>, hasAuthor: bool)
    ensures PutAll(ErrorIf(id.None?, "id", IdMandatory), PostCreateErrors(title, content, hasAuthor))
         == PostUpdateErrors(id, title, content, hasAuthor)
  {
    PostUpdateErrorsDistinct(id, title, content, hasAuthor);
    PutAllFresh(ErrorIf(id.None?, "id", IdMandatory), PostCreateErrors(title, content, hasAuthor));
  }

  /** Regrouping four concatenated lists. */
  lemma ConcatFour<T>(a: seq<T>, b: seq<T>, c: seq<T>, d: seq<T>)
    ensures a + (b + c + d) == a + b + c + d
  {
  }

  /** `if (cond) $errors[key] = message;` on a key the array does not hold appends the guarded error. */
  lemma PutErrorIf(errors: Entries<string, string>, cond: bool, key: string, message: string)
    requires Get(errors, key).None?
    ensures (if cond then Put(errors, key, message) else errors) == errors + ErrorIf(cond, key, message)
  {
    PutFresh(errors, key, message);
  }

  /** Appending a guarded error under a key the list does not hold keeps the keys distinct. */
  lemma DistinctThenError(errors: Entries<string, string>, cond: bool, key: string, message: string)
    requires DistinctKeys(errors) && Get(errors, key).None?
    ensures DistinctKeys(errors + ErrorIf(cond, key, message))
  {
  }

  /** The update's error list names each field at most once, as a PHP array must. */
  lemma PostUpdateErrorsDistinct(id: Option<string>, title: Option<string>, content: Option<string>, hasAuthor: bool)
    ensures DistinctKeys(PostUpdateErrors(id, title, content, hasAuthor))
  {
    var i := ErrorIf(id.None?, "id", IdMandatory);
    var t := ErrorIf(Blank(title), "title", TitleMandatory);
    var c := ErrorIf(Blank(content), "content", ContentMandatory);
    assert DistinctKeys(i + t) by {
      GetErrorIf(id.None?, "id", IdMandatory, "title");
      DistinctThenError(i, Blank(title), "title", TitleMandatory);
    }
    assert DistinctKeys(i + t + c) by {
      GetThenError(i, Blank(title), "title", TitleMandatory, "content");
      GetErrorIf(id.None?, "id", IdMandatory, "content");
      DistinctThenError(i + t, Blank(content), "content", ContentMandatory);
    }
    assert Get(i + t + c, "author").None? by {
      GetThenError(i + t, Blank(content), "content", ContentMandatory, "author");
      GetThenError(i, Blank(title), "title", TitleMandatory, "author");
      GetErrorIf(id.None?, "id", IdMandatory, "author");
    }
    DistinctThenError(i + t + c, !hasAuthor, "author", AuthorMandatory);
    ConcatFour(i, t, c, ErrorIf(!hasAuthor, "author", AuthorMandatory));
  }

  // ----------------------------------------------------------------------
  // The objects

  /** A registered (or registering) user. */
  class User {
    var username: Option<string>
    var passwd: Option<string>

    constructor (username: Option<string> := None, passwd: Option<string> := None)
      ensures this.username == username && this.passwd == passwd
    {
      this.username := username;
      this.passwd := passwd;
    }

    method SetUsername(username: Option<string>)
      modifies this`username
      ensures this.username == username
    {
      this.username := username;
    }

    method SetPassword(passwd: Option<string>)
      modifies this`passwd
      ensures this.passwd == passwd
    {
      this.passwd := passwd;
    }

    /** Throws unless both the username and the password have at least 5 bytes; nothing is trimmed. */
    method CheckIsValidForRegister() returns (thrown: Option<ValidationException>)
      ensures thrown == Verdict(RegisterErrors(username, passwd), UserNotValid)
    {
      var errors: Entries<string, string> := [];
      PutErrorIf(errors, Strlen(username) < MinCredentialLength, "username", UsernameTooShort);
      if Strlen(username) < MinCredentialLength {
        errors := Put(errors, "username", UsernameTooShort);
      }
      GetErrorIf(Strlen(username) < MinCredentialLength, "username", UsernameTooShort, "passwd");
      PutErrorIf(errors, Strlen(passwd) < MinCredentialLength, "passwd", PasswordTooShort);
      if Strlen(passwd) < MinCredentialLength {
        errors := Put(errors, "passwd", PasswordTooShort);
      }
      assert errors == RegisterErrors(username, passwd);
      if |errors| > 0 {
        return Some(ValidationException(errors, UserNotValid));
      }
      return None;
    }
  }

  /** A blog post: written by an author, holding a list of comments. */
  class Post {
    var id: Option<string>
    var title: Option<string>
    var content: Option<string>
    var author: User?
    var comments: Option<seq<Comment>>

    constructor (id: Option<string> := None, title: Option<string> := None, content: Option<string> := None,
                 author: User? := null, comments: Option<seq<Comment>> := None)
      ensures this.id == id && this.title == title && this.content == content
      ensures this.author == author && this.comments == comments
    {
      this.id := id;
      this.title := title;
      this.content := content;
      this.author := author;
      this.comments := comments;
    }

    method SetTitle(title: Option<string>)
      modifies this`title
      ensures this.title == title
    {
      this.title := title;
    }

    method SetContent(content: Option<string>)
      modifies this`content
      ensures this.content == content
    {
      this.content := content;
    }

    /** The author parameter is typed `User`, so NULL cannot be passed. */
    method SetAuthor(author: User)
      modifies this`author
      ensures this.author == author
    {
      this.author := author;
    }

    /** The comments parameter is typed `array`, so NULL cannot be passed. */
    method SetComments(comments: seq<Comment>)
      modifies this`comments
      ensures this.comments == Some(comments)
    {
      this.comments := Some(comments);
    }

    /** Throws unless the trimmed title and content are non-empty and there is an author. */
    method CheckIsValidForCreate() returns (thrown: Option<ValidationException>)
      ensures thrown == Verdict(PostCreateErrors(title, content, author != null), PostNotValid)
    {
      var errors: Entries<string, string> := [];
      PutErrorIf(errors, Blank(title), "title", TitleMandatory);
      if Blank(title) {
        errors := Put(errors, "title", TitleMandatory);
      }
      GetErrorIf(Blank(title), "title", TitleMandatory, "content");
      PutErrorIf(errors, Blank(content), "content", ContentMandatory);
      ghost var titled := errors;
      if Blank(content) {
        errors := Put(errors, "content", ContentMandatory);
      }
      GetErrorIf(Blank(title), "title", TitleMandatory, "author");
      GetThenError(titled, Blank(content), "content", ContentMandatory, "author");
      PutErrorIf(errors, author == null, "author", AuthorMandatory);
      if author == null {
        errors := Put(errors, "author", AuthorMandatory);
      }
      assert errors == PostCreateErrors(title, content, author != null);
      if |errors| > 0 {
        return Some(ValidationException(errors, PostNotValid));
      }
      return None;
    }

    /** Checks the id, then runs the creation check and copies whatever it threw into its own errors. */
    method CheckIsValidForUpdate() returns (thrown: Option<ValidationException>)
      ensures thrown == Verdict(PostUpdateErrors(id, title, content, author != null), PostNotValid)
    {
      var errors: Entries<string, string> := [];
      PutErrorIf(errors, id.None?, "id", IdMandatory);
      if id.None? {
        errors := Put(errors, "id", IdMandatory);
      }
      ghost var before := errors;
      var caught := CheckIsValidForCreate();
      ghost var create := PostCreateErrors(title, content, author != null);
      if caught.Some? {
        var copied := caught.value.errors;
        errors := CopyInto(errors, copied);
        UpdateCopiesCreateErrors(id, title, content, author != null);
      } else {
        assert errors == before + create;
      }
      assert errors == PostUpdateErrors(id, title, content, author != null);
      if |errors| > 0 {
        return Some(ValidationException(errors, PostNotValid));
      }
      return None;
    }
  }

  /** A comment on a post, written by an author. */
  class Comment {
    var id: Option<string>
    var content: Option<string>
    var author: User?
    var post: Post?

    constructor (id: Option<string> := None, content: Option<string> := None, author: User? := null, post: Post? := null)
      ensures this.id == id && this.content == content && this.author == author && this.post == post
    {
      this.id := id;
      this.content := content;
      this.author := author;
      this.post := post;
    }

    method SetContent(content: Option<string>)
      modifies this`content
      ensures this.content == content
    {
      this.content := content;
    }

    method SetAuthor(author: User)
      modifies this`author
      ensures this.author == author
    {
      this.author := author;
    }

    method SetPost(post: Post)
      modifies this`post
      ensures this.post == post
    {
      this.post := post;
    }

    /** Throws unless the trimmed content has at least 2 bytes and there are an author and a post. */
    method CheckIsValidForCreate() returns (thrown: Option<ValidationException>)
      ensures thrown == Verdict(CommentCreateErrors(content, author != null, post != null), CommentNotValid)
    {
      var errors: Entries<string, string> := [];
      PutErrorIf(errors, TooShortComment(content), "content", ContentMandatory);
      if TooShortComment(content) {
        errors := Put(errors, "content", ContentMandatory);
      }
      GetErrorIf(TooShortComment(content), "content", ContentMandatory, "author");
      PutErrorIf(errors, author == null, "author", AuthorMandatory);
      ghost var checkedContent := errors;
      if author == null {
        errors := Put(errors, "author", AuthorMandatory);
      }
      GetErrorIf(TooShortComment(content), "content", ContentMandatory, "post");
      GetThenError(checkedContent, author == null, "author", AuthorMandatory, "post");
      PutErrorIf(errors, post == null, "post", PostMandatory);
      if post == null {
        errors := Put(errors, "post", PostMandatory);
      }
      assert errors == CommentCreateErrors(content, author != null, post != null);
      if |errors| > 0 {
        return Some(ValidationException(errors, CommentNotValid));
      }
      return None;
    }
  }
}
