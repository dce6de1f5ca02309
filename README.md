# SimpleHTTPRequestHandler decision logic, in Dafny

This project models the decision logic of `SimpleHTTPRequestHandler`, the small
HTTP layer of the Machine Learning Keras Suite that serves an upload form, static
files and prediction results. The file system, sockets, templates, libmagic and
the multipart parser are abstracted away. The model covers three parts.

- **GET routing** (`routing.dfy`, module `Routing`; `handler.dfy`, `DoGet`).
  `/` goes to the index page after hook `GET`. `/favicon.ico` is rewritten to
  `/favicon/favicon.ico`. Any other path is tried against the route list
  `learning-overview, tmp, upload-form, upload, food, css, js, favicon` with the
  pattern `^/<route>(/(.+)?)?$` under `re.IGNORECASE`, written out as the
  predicate `MatchRoute`. The first route that matches calls hook `GET_<route>`
  and then handler `do_GET_<route>`, with every `-` turned into `_`. The handler
  gets the captured group 2 as its argument. No match, or a handler that returns
  false, gives `respond_html('', 404)`. `DoGet` is the loop of `do_GET`. It is
  proved against the function `Dispatch`, and lemmas about `Dispatch` prove the
  properties: first match wins, and for this route list at most one route can
  match at all, so the order only matters for lists this class does not have.
- **Hook and property registries** (`hooks.dfy`, `handler.dfy`). The class
  dictionaries `hooks` and `properties` are the two map fields of the class
  `SimpleHttpRequestHandler`. `SetHook` checks the hook the way `set_hook` does:
  there must be a `lambda`, it must be callable, a missing `arguments` becomes
  `[]`, and `arguments` must be a list. A rejected hook leaves the registry
  unchanged. `CallHook` returns the call `call_hook` would make: the stored
  lambda, and the call-site arguments followed by the stored ones.
- **Uploads and static files** (`uploads.dfy`, module `Uploads`).
  `WriteUploadFile` decides what `write_upload_file` returns and where it writes
  the uploaded bytes. `DoGetFile` decides how `do_GET_file` answers (picture,
  text file, or false). The MIME type libmagic detects and the answer of
  `os.path.isfile` are inputs.

Three behaviours of the code that the model keeps:

- `write_upload_file` stores the file before it checks the MIME type. A rejected
  upload is still written to `<root_data_path>/upload/<filename>`: see
  `Upload.stored`.
- A GET of `/favicon` or `/favicon/` calls `do_GET_file('favicon', None)`. That
  looks for the file `favicon/None` (`Routing.BareFaviconHasNoArgument`,
  `Uploads.FaviconFile`).
- `/FAVICON.ICO` is not rewritten, because that comparison is exact. It then
  matches no route, because `.ICO` does not start with `/`
  (`Routing.FaviconLookalikeNotFound`).

The code calls `collections.Callable`. That name was removed in Python 3.10, so
on 3.10 or later `set_hook` fails with an `AttributeError` for every hook that
has a `lambda`. The model follows the behaviour on the Python versions where
the name exists.

## Model

| member | source | states |
|---|---|---|
| `Routing.Canon` | mlks/http/simple_http_request_handler.py:383 | a character folds under `re.IGNORECASE` to a non-upper-case character; an ASCII upper-case letter folds to its lower-case letter, and lower-case ASCII, `/`, `-`, `_`, `.` are their own fold |
| `Routing.CanonMatchesPatternLetter` | mlks/http/simple_http_request_handler.py:383 | a path character matches a lower-case pattern letter exactly when it is that letter, its upper-case form, or one of the non-ASCII characters `re.IGNORECASE` folds to `i`, `s` or `k`; it matches `/` or `-` only when it is that character |
| `Routing.MatchRoute` | mlks/http/simple_http_request_handler.py:383 | a match means the path starts with `/<route>` in some casing, and then has nothing, a lone `/`, or `/` plus the returned argument, which is non-empty and has no newline |
| `Routing.MatchRouteComplete` | mlks/http/simple_http_request_handler.py:383 | every path of that shape matches, with group 2 equal to the argument (None for `/r` and `/r/`) |
| `Routing.FirstMatch` | mlks/http/simple_http_request_handler.py:382-384 | the returned index is a route that matches, with its captured argument, and no earlier route matches; None means no route in the list matches |
| `Routing.Rewrite` | mlks/http/simple_http_request_handler.py:378-379 | `/favicon.ico` becomes `/favicon/favicon.ico`, and every other path is left as it is |
| `Routing.Dispatch` | mlks/http/simple_http_request_handler.py:359-404 | the index page is chosen exactly for `/`, and any route chosen is one of the route list |
| `Routing.Underscored` | mlks/http/simple_http_request_handler.py:385 | `route.replace('-', '_')`: same length, no `-` left, `-` becomes `_`, and every other character is kept |
| `Routing.UnderscoredInjective` | mlks/http/simple_http_request_handler.py:391 | on names without `_`, replacing `-` by `_` maps distinct routes to distinct names |
| `Routing.MatchesAreDisjoint` | mlks/http/simple_http_request_handler.py:383 | no path matches two different routes made of lower-case letters and `-` (for example `/upload-form` and `/upload`) |
| `Routing.RoutesWellFormed` | mlks/http/simple_http_request_handler.py:364 | the route list holds distinct, non-empty routes of lower-case letters and `-` |
| `Routing.DispatchToAnyMatch` | mlks/http/simple_http_request_handler.py:382-401 | for a path other than `/`, any route the (rewritten) path matches is the route it is dispatched to, with that route's argument |
| `Routing.DispatchFirstMatch` | mlks/http/simple_http_request_handler.py:382-404 | for a path other than `/`: it goes to route `r` with argument `a` exactly when `r` is the first matching route and `a` is its group 2; it is not found exactly when no route matches |
| `Routing.FaviconIco` | mlks/http/simple_http_request_handler.py:377-379 | `/favicon.ico` is dispatched to route `favicon` with argument `favicon.ico` |
| `Routing.MismatchAt` | mlks/http/simple_http_request_handler.py:383 | a path whose folded character differs from `/<route>` at some position of that prefix does not match the route |
| `Routing.FaviconLookalikeNotFound` | mlks/http/simple_http_request_handler.py:377-404 | a path other than `/favicon.ico` that starts with `/favicon` in any casing and then has a character other than `/` (such as `/FAVICON.ICO`) is not found |
| `Routing.BareFaviconHasNoArgument` | mlks/http/simple_http_request_handler.py:383-396 | `/favicon` and `/favicon/` go to route `favicon` with no argument (group 2 is None) |
| `Routing.IndexOnlyForRoot` | mlks/http/simple_http_request_handler.py:366-375 | only `/` gives the index page, and no route matches `/` |
| `Routing.HandlerName` | mlks/http/simple_http_request_handler.py:385 | the handler name is `do_GET_` followed by the route, one character per route character, with each `-` as `_` |
| `Routing.HookName` | mlks/http/simple_http_request_handler.py:391 | the hook name is `GET_` followed by the route, one character per route character, with each `-` as `_` |
| `Routing.HandlerNameIsDoHookName` | mlks/http/simple_http_request_handler.py:385-391 | a route's handler name is `do_` followed by its hook name |
| `Routing.HandlersExist` | mlks/http/simple_http_request_handler.py:385-388 | every route's `do_GET_<name>` is a handler the class defines, so the missing-handler error is never raised |
| `Routing.HookNamesDistinct` | mlks/http/simple_http_request_handler.py:391 | no two routes of the list call the same hook |
| `PyValues.FormatOptional` | mlks/http/simple_http_request_handler.py:296 | `'%s'` of a string is the string itself, and of None is `None` |
| `Hooks.ValidateHook` | mlks/http/simple_http_request_handler.py:89-102 | accepted exactly when `lambda` is present and callable and `arguments` is absent or a list; each failure gives its own message, checked in order; an accepted hook keeps every entry and has `arguments`, defaulted to `[]` |
| `Hooks.ValidateStoredHook` | mlks/http/simple_http_request_handler.py:96-102 | checking a stored hook again accepts it unchanged |
| `Uploads.UploadPath` | mlks/http/simple_http_request_handler.py:233 | the upload path is the data root, then `/upload/`, then the filename |
| `Uploads.UploadPathWeb` | mlks/http/simple_http_request_handler.py:234 | the web path is the web root, then `upload/` with no separator before it, then the filename |
| `Uploads.WriteUploadFile` | mlks/http/simple_http_request_handler.py:224-255 | an empty filename gives 'No file was uploaded.' and writes nothing; any other filename is written to `<root>/upload/<filename>`; a MIME type outside `image/jpeg`, `image/png` gives the formatted rejection message; otherwise the upload path, the web path `<web root>upload/<filename>` and the MIME type are returned |
| `Uploads.UploadPathsRecoverFilename` | mlks/http/simple_http_request_handler.py:233-234 | the filename is what follows `<root>/upload/` and `<web root>upload/`, and the two paths agree after their roots except for the leading `/` |
| `Uploads.AcceptedPathsInjective` | mlks/http/simple_http_request_handler.py:233-235 | two accepted uploads under the same roots share an upload path exactly when they have the same filename |
| `Uploads.FaviconFile` | mlks/http/simple_http_request_handler.py:292-323 | the favicon route looks up `<root_project_path>/mlks/http/favicon/favicon.ico` for argument `favicon.ico`, and `.../favicon/None` when there is no argument |
| `Uploads.StaticFilePath` | mlks/http/simple_http_request_handler.py:296 | the file looked at is `<root_project_path>/mlks/http/<folder>/` followed by `'%s'` of the argument, which ends in `None` when there is no argument |
| `Uploads.DoGetFile` | mlks/http/simple_http_request_handler.py:288-318 | a missing file gives false; a file is served exactly when its MIME type is `image/png`, `image/x-icon` (as a picture with that content type) or `text/plain`, `text/xml` (as a text file with `; charset=utf-8`); any other type gives false |
| `Uploads.FileKindsDisjoint` | mlks/http/simple_http_request_handler.py:292-293 | no MIME type is in both the image table and the text table |
| `Handler.HandlerSucceeds` | mlks/http/simple_http_request_handler.py:320-323 | every route handler but `do_GET_favicon` returns true; `do_GET_favicon` returns what `do_GET_file('favicon', argument)` returns |
| `Handler.PageFor` | mlks/http/simple_http_request_handler.py:359-404 | the index page exactly for `/`, no page exactly when no route matches, and otherwise the handler `do_GET_<route>` on the captured argument, succeeding unless the route is `favicon` and its file is not served |
| `Handler.HookFor` | mlks/http/simple_http_request_handler.py:366-391 | hook `GET` for `/`, hook `GET_<route>` for a matched route, and no hook exactly when no route matches |
| `Handler.NotFoundExactly` | mlks/http/simple_http_request_handler.py:396-404 | do_GET answers with its own 404 exactly when no route matches, or when the route is `favicon` and its file is missing or of a type that is not served |
| `Handler.UploadData` | mlks/http/simple_http_request_handler.py:226-255 | the dictionary for a result has `error` and `message`; an accepted upload also has the two paths and the MIME type, with `message` None |
| `Handler.SimpleHttpRequestHandler.constructor` | mlks/http/simple_http_request_handler.py:53-55 | both class dictionaries start empty |
| `Handler.SimpleHttpRequestHandler.SetHook` | mlks/http/simple_http_request_handler.py:88-102 | succeeds exactly when the hook is valid; on success only `hooks[name]` changes, to the checked hook, and a later call passes the call-site arguments followed by the hook's arguments; on failure it returns the check's message and nothing changes |
| `Handler.SimpleHttpRequestHandler.SetGetHook` | mlks/http/simple_http_request_handler.py:80-82 | `SetHook` under `GET`: succeeds exactly for a valid hook and then stores it under `GET`; on failure it returns the check's message and the hooks are unchanged; the properties never change |
| `Handler.SimpleHttpRequestHandler.SetPostHook` | mlks/http/simple_http_request_handler.py:84-86 | `SetHook` under `POST`: succeeds exactly for a valid hook and then stores it under `POST`; on failure it returns the check's message and the hooks are unchanged; the properties never change |
| `Handler.SimpleHttpRequestHandler.SetProperty` | mlks/http/simple_http_request_handler.py:104-106 | afterwards `GetProperty(name)` is the new value and every other property reads as it did before; the hooks are unchanged |
| `Handler.SimpleHttpRequestHandler.GetProperty` | mlks/http/simple_http_request_handler.py:108-113 | None for a name never set, otherwise the stored value |
| `Handler.SimpleHttpRequestHandler.CallHook` | mlks/http/simple_http_request_handler.py:115-127 | None exactly for an unregistered name; otherwise the stored, callable lambda on the call-site arguments followed by the stored `arguments` |
| `Handler.SimpleHttpRequestHandler.DoGet` | mlks/http/simple_http_request_handler.py:359-404 | the route loop of do_GET gives the page, hook and hook call that `Dispatch` prescribes: the index page after `GET`, the first matching route's handler after its hook, or no page and no hook |
| `Handler.SimpleHttpRequestHandler.DoPost` | mlks/http/simple_http_request_handler.py:406-433 | a rejected upload shows its message and calls no hook; an accepted one calls hook `POST` with the upload dictionary first, and fails when no `POST` hook is registered |

## Left out

- URL parsing: `urlparse(self.path).path` is not modelled. `DoGet` takes the parsed path.
- Routing.MatchRoute: Python's `$` also matches just before a trailing newline (`/tmp/a\n` matches with argument `a`). The model reads `$` as the end of the string only. The rule that `.` does not match a newline is modelled.
- Routing.Canon: case folding is exact only for ASCII pattern characters. That covers every route of the list. For a non-ASCII route character, Python's Unicode case-insensitive matching is not modelled.
- Handler.SimpleHttpRequestHandler.CallHook: it returns the call it would make, not the lambda's result. The ML hook bodies are external code.
- Handler.SimpleHttpRequestHandler.DoGet: the result of each hook call is printed; the model does not say so. What the index page and each route handler write to the socket is not modelled. The model says only which handler runs, with which argument, and whether it returns true.
- Handler.SimpleHttpRequestHandler.SetHook: the stored dictionary is the caller's own object. `set_hook` adds `arguments` to the caller's dictionary, and later changes by the caller would show in the registry. This aliasing is not modelled, because the hook is a value here. The raised `AssertionError` is a returned `Fail(message)`.
- Handler.SimpleHttpRequestHandler.DoPost: the HTML it assembles from templates and from the fields the POST hook returns is not modelled. The crash when the POST hook is missing is a `PostHookMissing` view.
- Class-level state: one object stands for the class attributes shared by all handler instances.
- The request handler's `__init__` reads `root_data_path`, `root_data_path_web` and `root_project_path` from the properties. Here these paths are string parameters, so an unset property (formatted as `None`) is not modelled.
- `respond_html`, `respond_file`, `respond_picture`, `respond_picture_raw` and `get_template` are socket and file I/O over template files, and are not modelled. The same is true of the bodies of `do_GET_index`, `do_GET_learning_overview`, `do_GET_tmp`, `do_GET_upload`, `do_GET_upload_form`, `do_GET_food`, `do_GET_css` and `do_GET_js`; the model keeps only that each returns true.
- `cgi.FieldStorage` multipart parsing is not modelled. The uploaded filename is a string input, so a missing `file` field or a `None` filename is not modelled. libmagic's answer is an input (the detected MIME type, `mimeOf`), and so is `os.path.isfile` (`isFile`).
- The `print` of an unknown file type in `do_GET_file` is not modelled.
- The `print('favicon')` in `do_GET_favicon` (mlks/http/simple_http_request_handler.py:322) is console output and is not modelled.
- mlks/main.py is command-line option glue around training and demo code. It is not part of this model.
