# Pushover notification hook for WeeChat, modelled in Dafny

`notify_pushover.py` is a WeeChat script. It watches the lines the chat client
prints. For every private message, and for every channel line that highlights
the user, it sends a push notification through pushover.net. This project
models its three pieces of logic and proves what they do:

- **`notify`** (module `Notify`). This is the print hook. It filters on the
  buffer type and the highlight flag and words the notification. It then
  describes the one `hook_process_hashtable` call it makes: the endpoint, the
  form fields, `post = "1"`, the timeout and the completion callback. The
  result is a `Host.Call`. That is either the return code plus the request
  (or `None` when skipped), or the Python exception that escapes the hook.
- **`message_sent`** (module `Delivery`). This is the completion callback. It
  maps the process's exit code and the parsed response to `WEECHAT_RC_OK`, or
  to `WEECHAT_RC_ERROR` with the logged line. A response it cannot handle
  raises a Python exception instead.
- **`init_options` and the `OPTIONS` table** (module `Options`). The class
  `Script` holds the script's global table and the host's plugin
  configuration store (a `map<string, string>`). Its `InitOptions` method is
  the loop. Each option missing from the store gets its default. Each table
  entry is then replaced by its stored value, run through `int` for
  `timeout`. The loop visits options in an unspecified order, because a
  Python 2 dict has none. A `ValueError` from `int` stops it part-way, and
  the method's contract states the state it leaves behind. A ghost
  out-parameter names the options visited before the failure.

Two helper modules model the Python built-ins the script depends on.
`PyStr` covers `str.split(sep, 1)` and whitespace stripping. `PyInt` covers
`int()` on a string and `str()` on an integer. `Host` holds the return codes
and exceptions. `Wrappers` holds `Option`.

The host API is replaced by plain values: buffer attributes come in, and a
request record comes out. The host's configuration store is a map.

Three behaviours of the code worth noting:

- `message_sent` calls `json.loads` before it looks at the exit code. So a
  failed transfer with empty output, such as a refused connection, raises
  `ValueError`. It is not logged as a failure (`Delivery.UnparseableRaises`).
- The highlight flag is an integer compared with `0`, not a boolean.
- `post = "1"` is an option of the process hook, not one of the form fields.

## Model

| member | source | states |
|---|---|---|
| `Notify.OtherBuffersIgnored` | notify_pushover.py:62-63 | A buffer whose type is neither `private` nor `channel` sends nothing and returns OK |
| `Notify.QuietChannelIgnored` | notify_pushover.py:65-66 | A channel line with highlight flag 0 sends nothing and returns OK |
| `Notify.PrivateNotifies` | notify_pushover.py:65-69 | Every private line sends `<nick> sent you a private message on <server>`, whatever its highlight flag, and returns OK |
| `Notify.MentionNotifies` | notify_pushover.py:71-73 | A highlighted line in buffer `s.c`, where `s` has no dot, sends `<nick> mentioned you in c`; `c` keeps any later dots |
| `Notify.DotlessChannelRaises` | notify_pushover.py:72 | A highlighted line in a channel buffer whose name has no dot raises IndexError |
| `Notify.NotifyDecision` | notify_pushover.py:55-88 | A request is sent exactly for private lines and for highlighted channel lines whose buffer name has a dot; IndexError is raised exactly for highlighted channel lines without one; a normal return is always OK |
| `Notify.RequestShape` | notify_pushover.py:78-88 | Every request goes to `url:https://api.pushover.net:443/1/messages.json` with `post = "1"`, the configured timeout and callback `message_sent`; it has exactly the fields token, user, sound and message, holding the app token, the user key, the sound and one of the two message forms |
| `Notify.FirstStartPrivateMessage` | notify_pushover.py:78-88 | With nothing stored on the host, a private message is sent with empty credentials, sound `default` and timeout 5000 |
| `Delivery.MessageSent` | notify_pushover.py:46-53 | OK with nothing logged if and only if the exit code is 0 and the response's `status` equals 1; an ERROR return needs a `request` field and logs a line built from it |
| `Delivery.RejectionLogged` | notify_pushover.py:52-53 | Every failure whose response has a `request` field, of any JSON kind, returns ERROR and logs `pushover: Failed to send the message (Request: <value>)`; a text id appears verbatim |
| `Delivery.MissingRequestRaises` | notify_pushover.py:52 | A failure response with no `request` field raises KeyError |
| `Delivery.UnparseableRaises` | notify_pushover.py:47 | Output that is not JSON raises ValueError, whatever the exit code |
| `Options.Script.constructor` | notify_pushover.py:21-26 | The loaded script holds the declared table and the host's store as it is |
| `Options.Script.InitOptions` | notify_pushover.py:28-44 | The loop completes iff every option's transform succeeds on its stored value, which is the host's value, else the default. On completion the store is the old store with the defaults filled in, and each entry is its transformed stored value. On a ValueError for option `o`, `o`'s default is stored but its entry is unchanged; the options visited before it are resolved; the rest are untouched |
| `Options.StoreVisit` | notify_pushover.py:35-37 | Visiting one more option adds its default to the store only if it was missing, and leaves the store holding the option's stored value |
| `Options.TableVisit` | notify_pushover.py:39-44 | Visiting one more option replaces exactly its entry with the transform of its stored value |
| `Options.AllVisited` | notify_pushover.py:32-44 | Once every option is visited, the store equals the old store with defaults filled in, and the table equals the resolved table |
| `Options.FillDefaults` | notify_pushover.py:35-37 | Filling in defaults adds exactly the declared options, keeps every value the host already had and gives a missing option its default |
| `Options.FillDefaultsIdempotent` | notify_pushover.py:35-37 | Filling in defaults twice leaves the store as filling in once |
| `Options.ResolvableIffTimeoutParses` | notify_pushover.py:21-26 | For the script's table, initialisation succeeds iff the stored `timeout` is an integer to Python's `int` |
| `Options.SettingsOfResolved` | notify_pushover.py:39-44 | After initialisation, `notify` sees the stored user key, app token and sound unchanged and the stored timeout as an integer |
| `Options.FirstStartSettings` | notify_pushover.py:21-26 | With nothing stored on the host, initialisation succeeds with user key `""`, app token `""`, sound `default` and timeout 5000 |
| `Options.DefaultTimeoutParses` | notify_pushover.py:25 | The declared default `"5000"` converts to the integer 5000 |
| `PyStr.SplitOnce` | notify_pushover.py:72 | `split('.', 1)` gives `[s]` when there is no dot; otherwise it gives a dot-free head and a tail that rejoin with the dot into `s` |
| `PyStr.SplitOnceOfJoin` | notify_pushover.py:72 | Splitting `head + "." + tail`, where `head` has no dot, gives exactly `[head, tail]` |
| `PyStr.Strip` | notify_pushover.py:25 | The stripped string neither starts nor ends with whitespace |
| `PyStr.StripSplits` | notify_pushover.py:25 | Every string is its stripped result between a run of leading and a run of trailing whitespace |
| `PyStr.StripIgnoresPadding` | notify_pushover.py:25 | Whitespace added on either side does not change what stripping gives |
| `PyInt.ParseIntOfString` | notify_pushover.py:25 | `int(str(n)) == n` for every integer |
| `PyInt.ParseIntIgnoresPadding` | notify_pushover.py:25 | `int` ignores whitespace around the number |
| `PyInt.ParseIntAlphabet` | notify_pushover.py:25 | `int` accepts only strings with at least one digit and nothing but digits, whitespace and signs |
| `PyInt.NatToString` | notify_pushover.py:52 | `str` of a natural number is a non-empty digit string with no leading zero |
| `PyInt.DigitsOfNat` | notify_pushover.py:52 | Reading back the digits `str` writes gives the number |

## Left out

- Host calls are replaced by values: `buffer_get_string`, the `config_*_plugin` calls, `prnt`, `register`, `hook_print` and `hook_process_hashtable`.
- `hook_print` reaches `notify` only for lines tagged `irc_privmsg` or `notify_msg` (line 92). The model takes any event that does reach it.
- The option descriptions and `config_set_desc_plugin` (line 33) are left out. They only feed the host's configuration UI. The declared descriptions are kept in the table.
- The debug `prnt('', 'x')` (line 36) is left out. It only logs.
- Script registration and version metadata (lines 18-19, 90-93) are left out. They are boilerplate.
- `notify` does not take the `data`, `timestamp`, `tags`, `displayed` and `message` arguments, because it never reads them.
- `urllib.urlencode` (line 79) is not modelled, because it is library code. The post body is the map of form fields before encoding, so the encoding/decoding round trip is not stated.
- The asynchronous process run and when the host calls `message_sent` are not modelled; this is host concurrency. So are repeated calls with partial output while the transfer is still running. The exit code and the parsed output are parameters.
- `json.loads` (line 47) is not modelled. Its result is a pre-parsed `Body`. Field values are JSON scalars, so nested arrays and objects are not modelled. There are no floats either, so a `status` of `1.0`, which Python also counts as equal to 1, is not modelled.
- `Notify.Notify` takes the resolved settings. The case where `notify` runs with a table that `init_options` left unresolved (a stored `timeout` that is not an integer) is not modelled.
- `PyInt.ParseInt` accepts surrounding whitespace, an optional sign, then ASCII digits. The script runs on Python 2 (it uses `urllib.urlencode`, line 79), whose `int()` also accepts whitespace between the sign and the digits: `int("- 5")` is -5 there, while `ParseInt("- 5")` is `None`. A stored `timeout` of that form is therefore modelled as a ValueError that the source does not raise.
- Python 2's mixing of byte and Unicode strings in `str.format` is not modelled; strings are sequences of characters.
- The numeric values of `WEECHAT_RC_OK` and `WEECHAT_RC_ERROR` are not modelled. They are the two constructors of `Host.ReturnCode`.
