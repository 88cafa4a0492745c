# metadataStore collection API — a Dafny model

This project models the validation-and-dispatch layer of metadataStore's
collection API (`metadataStore/collectionapi/commands.py`). The layer records
experiment metadata (run headers, beamline configurations, event descriptors
and events) for a scientific facility. It has three entry points:

- `create` takes up to three loosely-typed dictionaries: a header, a beamline
  configuration and an event descriptor. It checks each one, fills the
  defaults of the omitted optional fields and saves it through the
  persistence gateway (`metadataStore.dataapi.raw_commands`), in that order.
- `record` does the same for one event.
- `search` forwards its filters to the gateway's `find` and returns the
  result.

`end_collection` does nothing.

The model is pure, like the source: datatypes, functions and lemmas.

- `values.dfy` (module `PyValues`) models the Python values the API receives.
  A dictionary is a `map<string, Value>`. `isinstance(x, int)` also accepts
  booleans, as in Python. Python 3's unbounded `int` is assumed: under
  Python 2 a `long` `scan_id` would fail the header's int check, while
  `VInt` holds any integer.
- `gateway.dfy` (module `RawCommands`) models the gateway's five operations as
  a `Call` datatype. A gateway is an oracle that answers each call by
  returning a value or raising one of the gateway's exceptions.
- `commands.dfy` (module `Commands`) holds the entry points.
  - The environment reads `getpass.getuser()` and `datetime.utcnow()` become
    the parameter `env`.
  - Each entry point returns a `Trace`: the ordered list of gateway calls it
    issued, and whether it returned or raised.
  - `create` runs three stages (header, beamline configuration, event
    descriptor) through `Run`. `Run` stops at the first exception and undoes
    nothing already written.
  - Python's default arguments are Dafny default parameter values.
- `dispatch_properties.dfy` (module `DispatchProperties`) proves how `Run`
  composes, when it succeeds, and how the first rejected stage decides the
  outcome.
- `command_properties.dfy` (module `CommandProperties`) proves what each
  entry point promises: the error precedence, the default table, the call
  order and the partial writes.

Where the docstring of `record` and its code disagree, the model follows the
code. The docstring lists `seq_no` as optional, and its first usage example
omits it. The code raises `ValueError` without it (`CommandProperties.RecordExamples`).

## Model

| member | source | states |
|---|---|---|
| `Commands.ValidateHeader` | metadataStore/collectionapi/commands.py:27-56 | A header dictionary is sent exactly when it has an int (or bool) `scan_id`. A missing `scan_id` raises `ValueError`; a non-int one raises `TypeError`. The save_header call takes every optional field from the header overlaid on the default table. |
| `Commands.ValidateBeamlineConfig` | metadataStore/collectionapi/commands.py:64-73 | A beamline configuration is sent exactly when `scan_id` is present, of any type; otherwise `ValueError`. `config_params` comes from the dictionary or defaults to `{}`. |
| `Commands.ValidateEventDescriptor` | metadataStore/collectionapi/commands.py:81-103 | An event descriptor is sent exactly when both `scan_id` and `descriptor_name` are present; `scan_id` is checked first and gives its own `ValueError`. Optional fields come from the overlay on the default table. |
| `Commands.ValidateEvent` | metadataStore/collectionapi/commands.py:132-158 | An event is sent exactly when `scan_id`, `descriptor_name` and `seq_no` are present; the first one missing, in that order, picks the `ValueError`. Optional fields come from the overlay on the default table. |
| `Commands.PrepareHeader` | metadataStore/collectionapi/commands.py:25-60 | A `None` header is skipped and only a `None` one; a non-dict raises `TypeError`; a dict is validated. |
| `Commands.PrepareBeamlineConfig` | metadataStore/collectionapi/commands.py:62-77 | Same skip / `TypeError` / validate decision for `beamline_config`. |
| `Commands.PrepareEventDescriptor` | metadataStore/collectionapi/commands.py:79-107 | Same skip / `TypeError` / validate decision for `event_descriptor`. |
| `Commands.StageTrace` | metadataStore/collectionapi/commands.py:54-58 | One stage issues only its own call, if any, and returns `None` when it does not raise. |
| `Commands.Run` | metadataStore/collectionapi/commands.py:25-107 | The calls issued are a prefix of the calls of the valid stages; when nothing raises, they are all of them, in order, and the result is `None`. |
| `Commands.Create` | metadataStore/collectionapi/commands.py:9-107 | `create` issues a prefix of the calls of its valid arguments and returns `None` when it does not raise. |
| `Commands.Record` | metadataStore/collectionapi/commands.py:110-160 | `record` issues at most one call and returns `None` when it does not raise. |
| `Commands.Search` | metadataStore/collectionapi/commands.py:163-192 | `search` issues exactly one `find` call and returns normally exactly when `find` does. |
| `Commands.EndCollection` | metadataStore/collectionapi/commands.py:195-196 | `end_collection` issues no call and returns `None`. |
| `DispatchProperties.RunAppend` | metadataStore/collectionapi/commands.py:25-107 | Processing a list of stages is processing its first part and then, only if that returned, the rest; earlier calls stay issued. |
| `DispatchProperties.RunSucceedsIff` | metadataStore/collectionapi/commands.py:25-107 | Processing returns normally exactly when no stage is invalid and the gateway accepts every call; it then issued every valid stage's call, in order. |
| `DispatchProperties.RunStopsAtFirstRejection` | metadataStore/collectionapi/commands.py:25-107 | The first rejected stage decides the outcome: earlier valid calls were issued, then its own call if any, and its exception (validation error or the gateway's, unchanged) is raised; later stages are ignored. |
| `DispatchProperties.RunAtMostOneCallPerStage` | metadataStore/collectionapi/commands.py:25-107 | At most one call per stage that is not skipped. |
| `CommandProperties.CreateInOrder` | metadataStore/collectionapi/commands.py:25-107 | `create(h, b, d)` is `create(h)` followed by `create(None, b, d)`, and `create(h, b)` followed by `create(None, None, d)`: fixed order, stop at the first error, no rollback. |
| `CommandProperties.CreateHeaderNotDict` | metadataStore/collectionapi/commands.py:25-60 | A non-`None`, non-dict header raises `TypeError` and issues no call. |
| `CommandProperties.CreateBeamlineConfigNotDict` | metadataStore/collectionapi/commands.py:62-77 | A non-dict `beamline_config` raises `TypeError` after the header's calls, which stay issued. |
| `CommandProperties.CreateEventDescriptorNotDict` | metadataStore/collectionapi/commands.py:79-107 | A non-dict `event_descriptor` raises `TypeError` after the earlier calls, which stay issued. |
| `CommandProperties.CreateAtMostOneCallPerArgument` | metadataStore/collectionapi/commands.py:25-107 | `create` issues at most one call per non-`None` argument, and only write calls. |
| `CommandProperties.CreateSucceedsIff` | metadataStore/collectionapi/commands.py:25-107 | `create` returns `None` exactly when no argument is refused and the gateway accepts every write. |
| `CommandProperties.CreateAllThree` | metadataStore/collectionapi/commands.py:54-103 | Three valid arguments and an accepting gateway give exactly three calls, in order: the header's save_header, the configuration's save_beamline_config and the descriptor's insert_event_descriptor, each as its validation built it; the result is `None`. |
| `CommandProperties.CreateHeaderGatewayFailure` | metadataStore/collectionapi/commands.py:54-58 | A raising save_header surfaces unchanged; it is the only call, and the later arguments are not looked at. |
| `CommandProperties.CreateHeaderErrors` | metadataStore/collectionapi/commands.py:27-33 | No `scan_id` raises `ValueError`; a non-int `scan_id` raises `TypeError`; neither calls save_header. |
| `CommandProperties.CreateHeaderDefaults` | metadataStore/collectionapi/commands.py:34-56 | A valid header gives one save_header call: present fields forwarded unchanged (`owner` as `header_owner`), missing ones defaulted to now, the current user, `None`, `{}` and `'In Progress'`. |
| `CommandProperties.CreateBeamlineConfigFields` | metadataStore/collectionapi/commands.py:64-73 | A beamline configuration needs only `scan_id`, of any type; `config_params` defaults to `{}`. |
| `CommandProperties.CreateEventDescriptorFields` | metadataStore/collectionapi/commands.py:81-103 | `scan_id` is checked before `descriptor_name`; defaults are `event_type_id=None`, `type_descriptor={}`, `tag=None`. |
| `CommandProperties.ScanIdTypeCheckedOnlyForHeader` | metadataStore/collectionapi/commands.py:27-92 | A string `scan_id` is refused in a header but accepted in a beamline configuration and an event descriptor. |
| `CommandProperties.RecordRequiredFields` | metadataStore/collectionapi/commands.py:132-151 | `record` raises `ValueError` for the first missing of `scan_id`, `descriptor_name`, `seq_no`, and then calls nothing. |
| `CommandProperties.RecordDefaults` | metadataStore/collectionapi/commands.py:140-160 | A complete event gives one insert_event: fields forwarded unchanged, `owner` defaults to the current user, `data` to `{}`, `description` to `None`; a gateway exception surfaces unchanged. |
| `CommandProperties.RecordSucceedsIff` | metadataStore/collectionapi/commands.py:132-160 | `record` returns normally exactly when the three required fields are present and the gateway accepts the event. |
| `CommandProperties.RecordExamples` | metadataStore/collectionapi/commands.py:110-151 | The docstring's first example, without `seq_no`, raises `ValueError`; with `seq_no` 0 the event is inserted with the default owner and data; `record()` raises for the missing `scan_id`. |
| `CommandProperties.SearchPassesThrough` | metadataStore/collectionapi/commands.py:190-192 | `search` issues one `find` with its six arguments unchanged and returns, or raises, exactly what `find` does. |
| `CommandProperties.SearchDefaults` | metadataStore/collectionapi/commands.py:163 | All filters default to `None` and `data` to `False`; `search` issues no write. |

## Left out

- The connection bootstrap (`metadataStore/sessionManager/databaseInit.py`) is not part of this model. It is I/O and a foreign library call: it opens the database connection and builds the logger.
- The gateway's internals are not modelled: uniqueness (`NotUniqueError`), referential integrity, and how `find` matches owner patterns. A gateway is a fixed reply per call. So the model does not capture that an earlier write can change the reply to a later call.
- `datetime.utcnow()` and `getpass.getuser()` are read from the parameter `env`, so both always succeed. The source reads them only when a default is needed.
- A failing `getpass.getuser()` is not modelled. It raises when no login name can be found. In `record` the owner default is read before the `seq_no` check (commands.py:144-151), so an event missing both `owner` and `seq_no` would raise getuser's exception instead of the `seq_no` `ValueError`. In `create`, a header without `owner` would raise before save_header is called.
- `record` with an `event` that is not a dictionary. The source does not check for this, and what happens then depends on Python's `in` on arbitrary objects.
- Python values are modelled as a few shapes. Dictionary keys are strings only. Subclasses of `dict` are treated as dictionaries, and any other object is known only by its type's name.
- `Commands.Create`: the later arguments' checks are computed before the earlier writes, and their result is dropped once an earlier step raises. The checks read nothing and write nothing, so the order and the outcome are the source's.
- The `try: ... except: raise` blocks are modelled only as "a gateway exception surfaces unchanged". They do nothing else.
