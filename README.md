# plone.gitpush: the Git smart-HTTP view, modelled in Dafny

plone.gitpush serves a Git repository from inside a Plone site. A browser view takes
requests for the Git HTTP protocol. Three behaviours are modelled:

- The view ends Zope traversal and keeps the remaining path as its subpath.
- The view looks the subpath up in a fixed table of ten routes (request method plus a
  regular expression anchored with `$`).
- The view answers with a plain-text 404 or 403, or hands the request on to dulwich's
  protocol handlers.

Each request is wrapped in an object. That object collects the pending response headers
and the pending cache headers, and writes them to Zope's response. The repository itself
is an in-memory repository that stores named control files in a dictionary.

The project has six modules:

- `Wrappers` (`wrappers.dfy`): `Option` and `Result`.
- `PyStrings` (`pystrings.dfy`): the Python built-ins the code relies on:
  - `str.lstrip` and `'/'.join`;
  - `list.reverse`;
  - `int()` on a byte string, with its decimal round trip;
  - `IndexOf`, a helper that finds the first space, where `split(' ', 1)` cuts a status line.
- `Repo` (`repo.dfy`): `ResourceRepo` and `ResourceBackend`.
- `GitRequest` (`request.dfy`): `HTTPGitRequest`, with the host request and response as
  small classes.
- `Routes` (`routes.dfy`): the route table. A pattern is a list of segments: literal text,
  or a fixed-width run of lower-case hex digits. `Search` models `re.search` with `$`,
  which matches at the end of the string or just before one final newline. `Scan` models
  the loop of `__call__`.
- `View` (`view.dfy`): `handle_service_request`, the handler table and `GitView`.

Objects that the source updates in place are classes: the repository, the request state,
the host request and response, and the view. `publishTraverse` reverses a list in place,
and the model does this on an `array`.

## Model

| member | source | states |
|---|---|---|
| Repo.Lookup | plone/gitpush/git.py:49-52 | the dictionary lookup gives a value exactly when the path was stored, and then the stored contents |
| Repo.NamedFileRoundTrip | plone/gitpush/git.py:31-52 | reading a path back after storing it gives the stored contents; other paths read as before; an empty file reads as `Some("")`, which differs from the `None` of a missing file |
| Repo.ResourceRepo.constructor | plone/gitpush/git.py:26-29 | a new repository has no objects, no refs and no named files, and is bare |
| Repo.ResourceRepo.PutNamedFile | plone/gitpush/git.py:31-37 | the named-file map becomes the old map with `path` set to `contents`; nothing else changes |
| Repo.ResourceRepo.GetNamedFile | plone/gitpush/git.py:39-52 | the result is `None` exactly when nothing was stored at `path`, and is the stored contents otherwise |
| Repo.ResourceRepo.OpenIndex | plone/gitpush/git.py:54-56 | opening the index always fails with `NoIndexPresent` |
| Repo.ResourceRepo.InitBare | plone/gitpush/git.py:58-73 | the new repository holds every given object in order and exactly the given refs, and is bare; its named files are exactly the control files `_init_files` writes, which are a parameter |
| Repo.ResourceBackend.OpenRepository | plone/gitpush/git.py:76-87 | every path gives the one shared repository |
| PyStrings.LStrip | plone/gitpush/git.py:163 | the result is a suffix of the input; it does not start with the stripped character; every dropped character is that character |
| PyStrings.ParseInt | plone/gitpush/git.py:119 | `int()` succeeds only on one or more digits, optionally after one sign |
| PyStrings.Join | plone/gitpush/git.py:199 | joining no parts gives ""; otherwise the result starts with the first part |
| PyStrings.Reversed | plone/gitpush/git.py:197-198 | the reversed list has the same length, and its element `k` is element `n - 1 - k` of the input |
| PyStrings.ParseIntRoundTrip | plone/gitpush/git.py:118-119 | `int()` reads back the decimal text of every integer, and that text has no space |
| GitRequest.SplitStatus | plone/gitpush/git.py:118-119 | a line without a space is rejected; on success the reason is everything after the first space |
| GitRequest.StatusRoundTrip | plone/gitpush/git.py:118-120 | splitting "code reason" gives back the code and the whole reason, spaces included |
| GitRequest.OkStatusLine | plone/gitpush/git.py:170 | `HTTP_OK` splits into status 200 with reason "OK" |
| GitRequest.NotFoundStatusLine | plone/gitpush/git.py:123-128 | `HTTP_NOT_FOUND` splits into 404 with reason "Not Found" |
| GitRequest.ForbiddenStatusLine | plone/gitpush/git.py:130-135 | `HTTP_FORBIDDEN` splits into 403 with reason "Forbidden" |
| GitRequest.ErrorStatusLine | plone/gitpush/git.py:137-142 | `HTTP_ERROR` splits into 500 with reason "Internal Server Error" |
| GitRequest.HeaderBlock | plone/gitpush/git.py:110-114 | the block is as long as its four parts together, and the pending headers stay in front |
| GitRequest.HeaderBlockOrder | plone/gitpush/git.py:110-114 | the header block is the pending headers, then the extra headers, then `Content-Type` when one is given, then the cache headers |
| GitRequest.HTTPGitRequest.constructor | plone/gitpush/git.py:96-102 | the request starts with no pending headers and no cache headers |
| GitRequest.HTTPGitRequest.AddHeader | plone/gitpush/git.py:104-106 | the header is appended after the pending ones |
| GitRequest.HTTPGitRequest.Respond | plone/gitpush/git.py:108-121 | the whole block is sent to the host in that order; the status is set exactly when the status line splits; a malformed line leaves the status unchanged |
| GitRequest.HTTPGitRequest.NotFound | plone/gitpush/git.py:123-128 | the cache headers are cleared; `Content-Type: text/plain` is the only header added; every pending header is sent; the status is 404; the message is returned |
| GitRequest.HTTPGitRequest.Forbidden | plone/gitpush/git.py:130-135 | the same as `NotFound`, with status 403 |
| GitRequest.HTTPGitRequest.Error | plone/gitpush/git.py:137-142 | the same as `NotFound`, with status 500 |
| GitRequest.HTTPGitRequest.NoCache | plone/gitpush/git.py:144-150 | the cache headers become exactly the 1980 `Expires`, `Pragma: no-cache` and the no-cache `Cache-Control` |
| GitRequest.HTTPGitRequest.CacheForever | plone/gitpush/git.py:152-159 | the cache headers become the date, the expiry one year (31536000 s) later, and a public one-year `Cache-Control` |
| GitRequest.CachePoliciesExclusive | plone/gitpush/git.py:144-159 | each cache policy carries its own `Cache-Control` value and never the other one |
| Routes.Search | plone/gitpush/git.py:238 | `re.compile(pattern + '$').search(path)`: the match ending before a final newline is tried first, then the one ending at the end; it has no contract of its own, and `SearchIsLeftmostMatch` states what it returns |
| Routes.SearchIsLeftmostMatch | plone/gitpush/git.py:238 | `search` fails exactly when no matching substring ends where `$` holds; otherwise it gives the leftmost such substring and its groups |
| Routes.SearchSound | plone/gitpush/git.py:238 | what `search` returns is a match that ends where `$` holds, with its groups |
| Routes.SearchComplete | plone/gitpush/git.py:238 | every match that ends where `$` holds is found, and none starts left of the one returned |
| Routes.RouteTable | plone/gitpush/git.py:204-216 | the table has ten entries: eight `GET` routes to file handlers, then two `POST` routes to the service request; no pattern ends in a newline |
| Routes.AtMostOneRoute | plone/gitpush/git.py:204-216 | no request matches two entries of the route table |
| Routes.OnlyMatch | plone/gitpush/git.py:204-216 | an entry that matches is the only one that does |
| Routes.NoMatchLeft | plone/gitpush/git.py:235-241 | when a scan over every entry finds nothing, no entry matches |
| Routes.Scan | plone/gitpush/git.py:234-241 | in any visiting order, the scan selects the entry that matches (right method, pattern found), with its handler and match; it is the only one; `None` exactly when no entry matches |
| View.HandlerFor | plone/gitpush/git.py:165 | a missing service gives `None`; a registered service gives exactly what is registered for it, so a handler comes back exactly when one is registered |
| View.ServiceName | plone/gitpush/git.py:163 | the service name is a suffix of the matched text, does not start with "/", and only slashes were dropped |
| View.ServiceReply | plone/gitpush/git.py:162-170 | the service is refused exactly when no handler is registered; a hand-off carries the service and its handler; the headers start with `Content-Type` |
| View.ServiceGate | plone/gitpush/git.py:162-170 | the answer is 200 exactly when a handler is registered; a refusal is 403 with "Unsupported service <name>" and none of the no-cache headers; a hand-off sends `application/x-<name>-result` and then the no-cache headers |
| View.HandleServiceRequest | plone/gitpush/git.py:162-170 | the request answers as `ServiceReply` says; the cache headers are empty for a refusal and the no-cache headers for a hand-off |
| View.ServiceRouteNames | plone/gitpush/git.py:163 | a match of the two POST routes names `git-upload-pack` or `git-receive-pack` |
| View.DefaultsServeBothRoutes | plone/gitpush/git.py:222-223 | with the default handlers, both POST routes reach a handler |
| View.MergeHandlers | plone/gitpush/git.py:223-225 | with no overrides the table is the defaults; otherwise its keys are the union and an override wins over a default |
| View.ReverseNames | plone/gitpush/git.py:198 | the array holds its old contents reversed |
| View.SubpathShape | plone/gitpush/git.py:197-199 | the subpath is "/" + name + "/" + the remaining names in URL order, so it starts with "/" + name |
| View.GitView.constructor | plone/gitpush/git.py:218-225 | the view has a new backend over the shared repository, the merged handler table and an empty subpath |
| View.GitView.PublishTraverse | plone/gitpush/git.py:193-202 | when names remain, the subpath is set as `SubpathShape` describes, else it is left as it was; the name stack is empty afterwards; the view itself is returned |
| View.GitView.Call | plone/gitpush/git.py:227-250 | 404 "Sorry, that method is not supported: <path>" exactly when no entry matches; a service entry answers as `ServiceReply` says; any other entry is handed its match and the response is untouched |

## Left out

- The dulwich side is not modelled: the object store, the refs container, the protocol
  handlers and the file handlers (`get_text_file`, `get_info_refs`, …). `Call` reports
  which handler would run and with which match.
- `handle_service_request` after the hand-off is not modelled: reading `BODYFILE`, the
  unused `CONTENT_LENGTH`, `ReceivableProtocol`, `url_prefix` and running the handler.
  These need dulwich and the request body stream.
- The loop in `__call__` that writes the handler's output to the response, and the
  response object it returns, are not modelled. They are I/O.
- Logging is not modelled.
- `index`, which only calls `__call__`, is not modelled.
- Repo.ResourceRepo.GetNamedFile: returns the stored contents rather than a `StringIO`
  over them. Storing `None` as contents is not modelled, because contents are strings.
- Repo.ResourceRepo.InitBare: `add_object` is modelled as appending to a list. The control
  files that `_init_files` (inherited from dulwich's `BaseRepo`) writes are dulwich's
  choice, so their names and contents are a parameter; the model writes each one through
  `PutNamedFile`.
- GitRequest.HTTPGitRequest.Respond: the host response keeps every header it is given, in
  order. Zope's replacement of an earlier header of the same name is not modelled. The
  returned `write` callable becomes the result of the status split.
- GitRequest.HTTPGitRequest.Respond: a Python `None` content type is written as the empty
  string, since both are false. The defaults `HTTP_OK` and `None` are passed explicitly
  by the callers.
- PyStrings.ParseInt: `int()` also skips surrounding whitespace. That is not modelled,
  since every status line used here is a fixed constant with no such whitespace.
- GitRequest.HTTPGitRequest.CacheForever: the clock (`time.time()`) and the HTTP date
  formatter are parameters.
- Routes.Scan: Python 2 dictionary order is unspecified, so the visiting order is a
  parameter. The scan's result does not depend on it.
- View.DefaultsServeBothRoutes: dulwich's `DEFAULT_HANDLERS` is taken to be the upload-pack
  and receive-pack services.
- View.GitView.constructor: `ResourceBackend.repo` is a class attribute shared by all
  backends, so the shared repository is passed in. The view's `context` is not used.
- View.GitView.PublishTraverse: the `request` argument is not used by the source and is
  not a parameter.
- View.GitView.Call: `dumb` is passed on to `HTTPGitRequest` and read only by dulwich's
  handlers, which are not modelled.
