# mvcblog core in Dafny

This project models the core of mvcblog, a small PHP blog built on a
hand-written MVC framework with a REST front end:

- **`rest/URIDispatcher.php`:** the REST router.
  - Routes (`method`, `/`-separated URL pattern, callback, whether to parse a
    JSON body) are kept in registration order.
  - A pattern segment containing `$<digit>` captures the request's segment at
    that position when the two segments differ; equal segments capture
    nothing.
  - The first matching route is invoked with the captured segments in
    ascending index order. The decoded JSON body follows only when the route
    was mapped with JSON parsing on and the request's Content-Type contains
    `application/json`.
  - With CORS enabled, an `OPTIONS` request is a preflight. It invokes
    nothing and instead answers with the upper-cased methods of every route
    whose path matches.
- **`core/ViewManager.php`:** view variables, the session's flash array
  (values that survive one redirect and are removed once read), and layout
  fragments that collect buffered view output.
- **`core/I18n.php`:** the current language's message table; the language
  itself is kept in the session. Keys translate through that table and fall back to the key itself.
- **`model/User.php`, `model/Post.php`, `model/Comment.php`:** the domain
  objects, their setters, and their validators.
  - Each validator collects a field-to-message error array.
  - It throws a `ValidationException` exactly when that array is not empty.
- **`index.php`:** the rule that turns a controller name from the URL into
  a controller class name.

Modules:

- **`Wrappers`:** `Option`.
- **`PhpString`:** `trim`, `strtoupper`, `explode`, `implode`, `strpos`.
- **`PhpArray`:** PHP's ordered array as a list of key/value entries, with
  `$a[$k] = $v`, lookup, the copying `foreach` loop and `ksort`.
- **`Rest`:** the matcher and dispatcher as pure functions (`Match`,
  `Dispatch`), and the `URIDispatcher` class, whose methods are proved
  against them.
- **`RestRoutes`:** the route tables the post and user endpoints register,
  and what the dispatcher does with concrete requests against them.
- **`Core`:** the `ViewManager` and `I18n` classes.
- **`Model`:** the `User`, `Post` and `Comment` classes. Each validator
  method is proved equal to a declarative error list.
- **`Index`:** `ControllerClassName`.

Environment inputs are parameters or fields:

- **Request data:** the request method, the path, the Content-Type header
  and the body form a `Request` value.
- **The PHP session:** modelled as fields.
  - The view manager has a flash-array field.
  - The translator has a current-language field.
  - A new object built from the session an earlier object left stands for
    the next request.
- **Language files:** a catalog map from language to message table.
- **Output:** `header(...)` calls and the callback invocation are part of the
  returned `Outcome`. View output is an explicit buffer.

## Model

| member | source | states |
|---|---|---|
| Rest.ParamIndex | rest/URIDispatcher.php:164 | the lazy `[0-9]+?` captures a single digit, so a segment's parameter index lies in 0..9 |
| Rest.ParamIndexSpec | rest/URIDispatcher.php:164 | a segment names a parameter iff `$` followed by a digit occurs anywhere in it (unanchored); the index is the digit of the leftmost such occurrence |
| Rest.Capture | rest/URIDispatcher.php:160-170 | the parameters collected by the segment loop have distinct keys, each in 0..9 |
| Rest.CaptureFailureStays | rest/URIDispatcher.php:166-168 | once one segment pair fails, the segment loop fails however many pairs follow (the early `return false`) |
| Rest.CaptureSucceeds | rest/URIDispatcher.php:162-170 | the segment loop succeeds iff every segment pair is equal or its pattern segment names a parameter |
| Rest.CaptureValue | rest/URIDispatcher.php:163-165 | index d is captured iff some unequal pair names d; its value is the request segment of the last such pair, so a later duplicate overwrites an earlier one |
| Rest.Match | rest/URIDispatcher.php:149-175 | a match implies the method check passed and both paths have equal segment counts; the parameters are in strictly ascending index order (`ksort`), each index in 0..9 |
| Rest.MatchSucceeds | rest/URIDispatcher.php:149-170 | a route matches iff the request method equals the upper-cased route method (or is OPTIONS with CORS on), the segment counts agree, and every pair is equal or names a parameter |
| Rest.MatchParameters | rest/URIDispatcher.php:160-174 | a match's parameters are sorted; index d is present iff some pair captures it, and then holds the last capturing pair's request segment |
| Rest.PathArgs | rest/URIDispatcher.php:103 | callback arguments are the captured segments, in array order, one per entry |
| Rest.AllowedMethods | rest/URIDispatcher.php:86-88 | the preflight list has at most one method per route |
| Rest.AllowedMethodsEmpty | rest/URIDispatcher.php:86-88 | the preflight list is empty iff no route matches |
| Rest.AllowedMethodsAppend | rest/URIDispatcher.php:80-88 | the preflight list of a concatenated table is the two lists in table order |
| Rest.AllowedMethodsSingle | rest/URIDispatcher.php:86-88 | one route adds its upper-cased method iff it matches |
| Rest.FirstMatch | rest/URIDispatcher.php:80-84 | the route found matches and every earlier route does not; when none is found no route at or after the start matches |
| Rest.Dispatch | rest/URIDispatcher.php:77-118 | the dispatcher returns true iff some route matches; the answer is a preflight iff CORS is on, the method is OPTIONS and some route matches; an invoked route is the first matching one and its callback is called |
| Rest.PreflightIgnoresRouteMethod | rest/URIDispatcher.php:149-150 | in a preflight the route's own method is never compared: changing it does not change whether the route matches |
| Rest.LowerCaseRequestMethodRejected | rest/URIDispatcher.php:149-150 | a request method containing a lower-case letter matches no route, CORS or not: only the route method is upper-cased (under string comparison; see Left out) |
| Rest.PreflightAnswer | rest/URIDispatcher.php:110-115 | a preflight with a matching route sends exactly three headers: the allowed origin, the allowed request headers (no space after the colon), and the comma-joined allowed methods followed by `,OPTIONS` |
| Rest.PreflightKeepsDuplicates | rest/URIDispatcher.php:86-88 | two matching routes both contribute their methods to the preflight list, duplicates included, in table order |
| Rest.InvokedArguments | rest/URIDispatcher.php:93-105 | an invoked route receives its sorted captured segments, then at most one more argument, the JSON body, present iff the route parses JSON and the Content-Type contains `application/json`; the only header sent is `Access-Control-Allow-Origin: ` + origin, and only when CORS is on |
| Rest.URIDispatcher.constructor | rest/URIDispatcher.php:27-35 | a new dispatcher has an empty route table and CORS off |
| Rest.URIDispatcher.Map | rest/URIDispatcher.php:59-69 | appends exactly one route, JSON parsing on by default, and returns the dispatcher itself for chaining |
| Rest.URIDispatcher.EnableCORS | rest/URIDispatcher.php:120-124 | CORS is on with the given origin and request headers |
| Rest.URIDispatcher.MatchRequest | rest/URIDispatcher.php:145-176 | the loop over the segments returns true iff `Match` succeeds, and then the parameters `Match` computes |
| Rest.URIDispatcher.DispatchRequest | rest/URIDispatcher.php:77-118 | the loop over the table produces exactly the outcome `Dispatch` describes for the current table and CORS settings |
| RestRoutes.RegisterPostRoutes | rest/PostRest.php:201-207 | the post endpoint's six chained `map` calls append its table in order |
| RestRoutes.RegisterUserRoutes | rest/UserRest.php:54-56 | the user endpoint's two chained `map` calls append its table in order |
| RestRoutes.ParametersInIndexOrder | rest/URIDispatcher.php:136-138 | `/user/alice/posts/1` against `/user/$2/posts/$1` yields `[1 => "1", 2 => "alice"]` |
| RestRoutes.TrailingSlashDoesNotMatch | rest/URIDispatcher.php:153-158 | `/post/` does not match `/post`, because `explode` keeps the trailing empty segment and the counts differ |
| RestRoutes.PreflightOnPostId | rest/URIDispatcher.php:86-88 | with CORS on, `OPTIONS /post/42` over the post table allows GET, PUT and DELETE, the methods of the three `/post/$1` routes |
| RestRoutes.ReadPost | rest/PostRest.php:203 | with CORS off, `GET /post/42` over the post table invokes `readPost` (route 1) with the single argument `"42"` and sends no header |
| PhpArray.Get | rest/URIDispatcher.php:165 | a lookup finds a value iff the key has an entry, and that entry holds the value |
| PhpArray.Put | rest/URIDispatcher.php:165 | `$a[$k] = $v` makes k hold v and leaves every other key's value unchanged |
| PhpArray.PutFresh | model/Post.php:161-167 | assigning to a key the array does not hold appends one entry at the end, so error keys keep their check order |
| PhpArray.PutPresent | rest/URIDispatcher.php:165 | assigning to a key the array holds replaces it in place: the length is unchanged and every position keeps its key |
| PhpArray.PutDistinct | rest/URIDispatcher.php:165 | assignment keeps the keys of an array distinct |
| PhpArray.CopyInto | model/Post.php:194-196 | the copying `foreach` loop puts each entry in array order |
| PhpArray.GetPutAll | model/Post.php:194-196 | after copying, a key holds the copied value if it was copied, else its old value |
| PhpArray.GetAppend | model/Post.php:194-196 | looking up in two arrays laid end to end finds the first array's value first |
| PhpArray.PutAllFresh | model/Post.php:194-196 | copying entries whose keys are all new appends them in order |
| PhpArray.KSort | rest/URIDispatcher.php:172-174 | `ksort` leaves keys strictly ascending, with the same length and the same value under every key |
| PhpString.ToUpper | index.php:57 | `strtoupper` keeps the length and maps each byte through UpperChar: only `a`..`z` change |
| PhpString.Implode | rest/URIDispatcher.php:113 | `implode` of no parts is empty; otherwise the result starts with the first part and is as long as all parts plus one separator between each neighbouring pair |
| PhpString.ExplodeImplode | rest/URIDispatcher.php:153-154 | `explode` undoes `implode` on parts that hold no separator |
| PhpString.Contains | rest/URIDispatcher.php:95 | `strpos(hay, needle) !== false` holds iff the needle occurs at some position of the haystack |
| PhpString.Explode | rest/URIDispatcher.php:153-154 | the parts contain no separator, and joining them with it gives back the input |
| PhpString.ExplodeCount | rest/URIDispatcher.php:153-156 | `explode` gives one more part than the input has separators |
| PhpString.Trim | model/Post.php:160 | `trim` never lengthens a string |
| PhpString.TrimKeepsMiddle | model/Comment.php:133 | `trim` keeps the contiguous middle of the string that starts where `ltrim` stops; every byte before and after it is a trim character |
| PhpString.TrimSpec | model/Post.php:160-165 | the trimmed string is empty iff every character is a trim character, and otherwise starts and ends on a non-trim character |
| Core.ViewManager.constructor | core/ViewManager.php:54-83 | a new view manager has no fragments, no variables and an empty buffer, is on the default fragment with the `default` layout, and holds the session's flash array |
| Core.ViewManager.GetFragment | core/ViewManager.php:136-141 | the saved contents of a fragment, or the default when nothing was saved there |
| Core.ViewManager.SaveCurrentFragment | core/ViewManager.php:93-98 | the buffer is appended to the current fragment (an unsaved one starts empty) and emptied; other fragments are unchanged |
| Core.ViewManager.MoveToFragment | core/ViewManager.php:110-114 | the pending output goes to the old fragment, and the named fragment becomes current |
| Core.ViewManager.MoveToDefaultFragment | core/ViewManager.php:124-126 | as MoveToFragment with the default fragment |
| Core.ViewManager.SetVariable | core/ViewManager.php:155-166 | the variable is set; with `flash` it is also stored in the session's flash array, and otherwise the session is unchanged |
| Core.ViewManager.GetVariable | core/ViewManager.php:179-190 | a non-NULL view variable wins and leaves the session alone; otherwise a non-NULL flash value is returned and removed from the session; otherwise the default |
| Core.ViewManager.SetFlash | core/ViewManager.php:201-204 | the message is stored under `__flashmessage__` as a view variable and in the flash array |
| Core.ViewManager.PopFlash | core/ViewManager.php:211-213 | reads `__flashmessage__` as GetVariable does, with default `""` |
| Core.ViewManager.SetLayout | core/ViewManager.php:224-226 | the layout becomes the given name |
| Core.SetThenGet | core/ViewManager.php:155-190 | a non-NULL variable reads back as the value that was set, and the session is unchanged |
| Core.SetNullThenGet | core/ViewManager.php:179-181 | a variable set to NULL is not `isset`, so reading it gives the default when the flash array does not hold it |
| Core.FlashReadOnce | core/ViewManager.php:182-187 | a flash value is returned by the first read and is gone for the second, which gives the default |
| Core.FlashAcrossRedirect | core/ViewManager.php:201-213 | a flash message read in the request that set it survives in the session; the next request pops it once, then gets `""` |
| Core.FragmentsCollectOutput | core/ViewManager.php:93-141 | output before and after a fragment switch lands in the two fragments; a fragment never written gives its default |
| Core.LanguageTable | core/I18n.php:47-48 | a language's file yields its table; a missing file leaves no table (NULL) |
| Core.I18n.constructor | core/I18n.php:26-37 | the session's language is loaded if there is one, otherwise `es`, which is then recorded in the session |
| Core.I18n.SetLanguage | core/I18n.php:45-52 | the language's table (or none) becomes current, and the language is recorded in the session |
| Core.I18n.Translate | core/I18n.php:59-65 | a key with a translation in the current table translates to it; otherwise, or with no table, the key itself |
| Core.I18n.GetAllMessages | core/I18n.php:87-89 | the whole current table, or none when its file was missing |
| Core.TranslateAfterSwitch | core/I18n.php:45-65 | after switching language, keys translate through the new language's table and other keys come back unchanged |
| Core.LanguageSurvivesRequest | core/I18n.php:31-33 | a translator built from the session an earlier one left loads the language chosen there |
| Model.Verdict | model/Post.php:170-172 | nothing is thrown iff the error array is empty; otherwise the exception carries the errors and the message |
| Model.BlankMeansOnlyTrimCharacters | model/Post.php:160-165 | a field fails the `strlen(trim(...)) == 0` check iff it is NULL or holds only trim characters |
| Model.RegisterErrors | model/User.php:84-96 | registration reports nothing iff the username and the password both have at least 5 bytes |
| Model.RegisterErrorsByField | model/User.php:86-92 | `username` and `passwd` are each reported, with their own messages, exactly when that field is shorter than 5 bytes; no other key |
| Model.FiveBytesAccepted | model/User.php:86-92 | a username and a password of exactly 5 bytes pass |
| Model.BothCredentialsReported | model/User.php:86-95 | a short username and a short password are both reported, username first, in one exception |
| Model.User.constructor | model/User.php:33-36 | a user holds the given username and password, NULL by default |
| Model.User.SetUsername | model/User.php:53-55 | the username becomes the given value |
| Model.User.SetPassword | model/User.php:71-73 | the password becomes the given value |
| Model.User.CheckIsValidForRegister | model/User.php:84-96 | throws exactly the registration errors with `user is not valid`, or nothing when they are empty |
| Model.PostCreateErrors | model/Post.php:158-173 | creation reports nothing iff the trimmed title and content are both non-empty and there is an author |
| Model.PostCreateErrorsByField | model/Post.php:160-168 | `title`, `content` and `author` are each reported, with their own messages, exactly when that field fails; no other key |
| Model.PostUpdateErrors | model/Post.php:184-201 | an update reports nothing iff the id is set and creation reports nothing |
| Model.PostUpdateErrorsByField | model/Post.php:186-196 | `id` is reported iff the id is unset; every other key is reported exactly as creation reports it |
| Model.PostUpdateErrorsDistinct | model/Post.php:186-196 | the update's error array names each field at most once |
| Model.UpdatePassesOnlyIfCreatePasses | model/Post.php:184-201 | a post that passes the update check also passes the creation check |
| Model.Post.constructor | model/Post.php:55-62 | a post holds the given id, title, content, author and comments, NULL by default |
| Model.Post.SetTitle | model/Post.php:88-90 | the title becomes the given value |
| Model.Post.SetContent | model/Post.php:107-109 | the content becomes the given value |
| Model.Post.SetAuthor | model/Post.php:126-128 | the author becomes the given (non-NULL) user |
| Model.Post.SetComments | model/Post.php:145-147 | the comments become the given (non-NULL) list |
| Model.Post.CheckIsValidForCreate | model/Post.php:158-173 | throws exactly the creation errors with `post is not valid`, or nothing when they are empty |
| Model.Post.CheckIsValidForUpdate | model/Post.php:184-201 | the id check followed by the creation check's copied errors throws exactly the update errors with `post is not valid`, or nothing |
| Model.CommentCreateErrors | model/Comment.php:130-146 | a comment reports nothing iff its trimmed content has at least 2 bytes and it has an author and a post |
| Model.CommentCreateErrorsByField | model/Comment.php:133-141 | `content`, `author` and `post` are each reported, with their own messages, exactly when that field fails; no other key |
| Model.Comment.constructor | model/Comment.php:48-53 | a comment holds the given id, content, author and post, NULL by default |
| Model.Comment.SetContent | model/Comment.php:79-81 | the content becomes the given value |
| Model.Comment.SetAuthor | model/Comment.php:98-100 | the author becomes the given (non-NULL) user |
| Model.Comment.SetPost | model/Comment.php:117-119 | the post becomes the given (non-NULL) post |
| Model.Comment.CheckIsValidForCreate | model/Comment.php:130-146 | throws exactly the comment errors with `comment is not valid`, or nothing when they are empty |
| Index.ControllerClassName | index.php:56-58 | the class name is the controller name with its first byte upper-cased and the rest copied, followed by `Controller` |
| Index.UsersController | index.php:51 | `users` gives `UsersController` |
| Index.ControllerClassNameKeepsUpper | index.php:57 | a name whose first byte is not a lower-case letter is kept as it is, followed by `Controller` |

## Left out

- Request path derivation (`substr` of `REQUEST_URI` by the script directory, then `parse_url`): the dispatcher receives the resulting path as `Request.path`.
- `json_decode` of the body, `header(...)` and `call_user_func_array`: they are recorded in the `Outcome` (raw body, header lines, callback and arguments) rather than performed.
- The singletons (`getInstance` of `URIDispatcher`, `ViewManager` and `I18n`) and the global `i18n()` shortcut: they only build or forward to one shared object.
- Rest.Match: both comparisons that use PHP's loose `!=` are modelled as string inequality: the method check (rest/URIDispatcher.php:149) and the segment comparison (line 163). PHP compares two numeric strings numerically (`"01"` equals `"1"`, `"1e1"` equals `"1E1"` and `"10"`). In the source, such a segment pair counts as equal and is not captured. Such a request method passes the method check. No route the application registers has a numeric method. The comparison with `OPTIONS` is unaffected, since `OPTIONS` is not numeric.
- Method comparison: the request method must equal `strtoupper` of the route method as strings (see Rest.Match). Only the route side is upper-cased, so a lower-case request method (`get`) never matches (Rest.LowerCaseRequestMethodRejected).
- Rest.LowerCaseRequestMethodRejected: holds under string comparison only. With the source's loose `!=`, a numeric request method such as `1e1` passes the method check against a route mapped with method `1e1` (`strtoupper` gives `1E1`, and both equal 10).
- Rest.URIDispatcher.constructor: `allowedOrigin` and `allowedRequestHeaders` are NULL in PHP until `enableCORS`; the model starts them at `""`. They are only read when CORS is on, and by then `enableCORS` has set them.
- The `print_r` in `setVariable` dumps the flash array into the active output buffer when that array is first created. This debug dump is not modelled: `ViewManager.buffer` does not receive it. Neither is the difference between an absent and an empty flash array, which only that dump shows.
- Values handed to views: arrays and objects handed to views are opaque references; only NULL and strings are told apart.
- `ViewManager` rendering (`render`, `renderLayout`, `redirect`, `redirectToReferer`), `session_start` and output buffering: they are I/O. The buffer is a string field written by `Write`.
- The REST handlers, controllers, mappers, database access and templates: they are outside this model. `view/messages/messages_es.php` is a catalog input.
- The `ValidationException` class: it is a record of errors and a message (`Model.ValidationException`); throwing is the `Some` result of the validators.
- Strings are sequences of characters, one per byte: `strlen`, `trim` and `strtoupper` are modelled on ASCII, with no multibyte handling.
