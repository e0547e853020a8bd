# kayobe container image action, modelled in Dafny

Kayobe's `kayobe_container_image` Ansible action plugin takes Docker-style
arguments for building or pulling a container image. It runs the image
module of the configured container engine. The engine is read from the
`container_engine` task variable and defaults to `docker`. The
engine-to-module table has two entries:

- `docker` maps to `community.docker.docker_image`;
- `podman` maps to `containers.podman.podman_image`.

For Podman the plugin first rewrites the Docker-style `source` argument:

- `source: build` becomes `state: build`;
- `source: pull` becomes `pull: true`;
- any other value raises `Unsupported source parameter: <value>`, except that Python 3.11 and later raise `ValueError` instead when the value is an integer of more than 4300 decimal digits;
- a missing `source` raises `KeyError`.

The model is four modules:

- `Wrappers`: `Option` and `Result`, usable with `:-`.
- `Dicts`: a Python dict as an insertion-ordered list of entries.
  - `Lookup` is `d[k]`.
  - `Store` is `d[k] = v`: an existing key keeps its position and a new key is appended.
  - `Delete` is `del d[k]`.
  - `Lookup` and `Delete` return `None` where Python raises `KeyError`.
  - `ToMap` forgets the order and keeps the key-to-value view.
- `Values`: argument values (`None`, booleans, integers, strings), and
  Python's `str()`, which the error message uses.
- `ContainerImage`:
  - `Translate` is a reference definition over plain maps.
  - `Run` follows `ActionModule.run` step by step on ordered dicts. Instead of
    calling the module runner, it returns the module name and the arguments it
    would pass (a `Delegation`), or the error raised first.
  - `Run`'s contract ties it to `Translate`, and lemmas state each branch.

The engine table is followed as written: an engine value outside the table
is not rejected. The lookup gives no module (`None`) and the arguments pass
through unchanged. What the module runner then does with a missing module
name is outside the plugin. Every engine value other than `"podman"` passes
the arguments through unchanged, not only `"docker"`.

## Model

| member | source | states |
|---|---|---|
| `Dicts.Lookup` | ansible/action_plugins/kayobe_container_image.py:16 | reading the `source` argument yields the value the dict maps the key to, and fails (Python's `KeyError`) exactly when the key is absent |
| `Dicts.Store` | ansible/action_plugins/kayobe_container_image.py:18-20 | assigning `state` or `pull` gives that key the new value in the mapping view and leaves every other key's value as it was |
| `Dicts.StoreKeys` | ansible/action_plugins/kayobe_container_image.py:18-20 | after an assignment, an existing key keeps its place, a new key is appended last, and keys stay distinct |
| `Dicts.Delete` | ansible/action_plugins/kayobe_container_image.py:23 | deleting the `source` argument succeeds exactly when the key is present, removes only that key, keeps the other keys in order and keeps keys distinct |
| `Dicts.DropKeys` | ansible/action_plugins/kayobe_container_image.py:23 | after deletion the remaining keys are the original keys in their original order with the deleted key erased |
| `ContainerImage.TranslateForPodman` | ansible/action_plugins/kayobe_container_image.py:16-23 | the step-by-step Podman rewrite on an ordered dict fails with the same error as the map-level reference, or succeeds with the reference's arguments, and keeps keys distinct |
| `ContainerImage.Run` | ansible/action_plugins/kayobe_container_image.py:12-24 | the module and arguments the plugin would delegate agree with the map-level reference `Translate` for every argument dict and every task-variable map; the module is always the table entry for the engine; for a non-Podman engine the forwarded dict is the caller's, order included; forwarded keys stay distinct |
| `ContainerImage.ModuleTable` | ansible/action_plugins/kayobe_container_image.py:4-7 | the table gives the Docker module exactly for `"docker"`, the Podman module exactly for `"podman"`, and no module for any other engine value |
| `ContainerImage.DefaultEngineIsDocker` | ansible/action_plugins/kayobe_container_image.py:13-24 | with no `container_engine` variable the Docker module is chosen and the arguments are forwarded exactly as given |
| `ContainerImage.NonPodmanPassesThrough` | ansible/action_plugins/kayobe_container_image.py:12-24 | for any engine other than `"podman"` the forwarded arguments are the caller's, in the same order, and the module is the table entry for that engine |
| `ContainerImage.UnknownEngineSelectsNoModule` | ansible/action_plugins/kayobe_container_image.py:24 | an engine outside the table gives no module and unchanged arguments, not an error |
| `ContainerImage.PodmanBuild` | ansible/action_plugins/kayobe_container_image.py:16-23 | Podman with `source: build` selects the Podman module; the forwarded arguments have `state: build`, no `source`, the caller's other keys, and the caller's value for every key except `state` |
| `ContainerImage.PodmanPull` | ansible/action_plugins/kayobe_container_image.py:16-23 | Podman with `source: pull` selects the Podman module; the forwarded arguments have `pull: true`, no `source`, the caller's other keys, and the caller's value for every key except `pull` |
| `ContainerImage.PodmanUnsupportedSource` | ansible/action_plugins/kayobe_container_image.py:21-22 | Podman with any other `source` value fails with an unsupported-source error carrying that value, and nothing is delegated |
| `ContainerImage.PodmanMissingSource` | ansible/action_plugins/kayobe_container_image.py:16 | Podman with no `source` argument fails with a missing-argument error for `source`, and nothing is delegated |
| `ContainerImage.RunFailsIff` | ansible/action_plugins/kayobe_container_image.py:14-22 | the plugin fails before delegating if and only if the engine is `"podman"` and `source` is missing or is neither `"build"` nor `"pull"` |
| `ContainerImage.PassThroughIdempotent` | ansible/action_plugins/kayobe_container_image.py:12-24 | for a non-Podman engine, running again on the forwarded arguments gives the same outcome |
| `ContainerImage.PodmanOutputNotRetranslatable` | ansible/action_plugins/kayobe_container_image.py:16-23 | successful Podman arguments never contain `source`, so running the Podman translation on them again fails on the missing key |
| `ContainerImage.PodmanKeyOrder` | ansible/action_plugins/kayobe_container_image.py:18-23 | forwarded Podman argument order: the caller's keys in order without `source`, then `state` or `pull` last if the caller did not already pass it |
| `ContainerImage.UnsupportedSourceMessageNamesValue` | ansible/action_plugins/kayobe_container_image.py:22 | the error text is `Unsupported source parameter: ` followed by the value as Python's `str()` prints it: a string verbatim, `True`/`False`, `None`, or an integer's decimal digits without leading zeros (after `-` when negative) denoting its magnitude |
| `Values.ShowIntDenotes` | ansible/action_plugins/kayobe_container_image.py:22 | the f-string's text for an integer is its decimal digits, non-empty and without leading zeros, after `-` when negative, and those digits denote its magnitude |
| `Values.ReadDigitsOfDigits` | ansible/action_plugins/kayobe_container_image.py:22 | the decimal digits the f-string prints for a non-negative integer denote that integer |

## Left out

- Ansible plumbing is not modelled: `super().run`, `tmp`, `self._task`, and the call to `self._execute_module` (lines 11, 25-28). `Run` returns the module name and arguments it would pass instead of the module's result. The Docker and Podman modules are not part of this model.
- The copy of the task arguments (line 12) has no separate contract. Dafny dicts are immutable values, so `Run` cannot modify the caller's arguments and the property holds by construction.
- `task_vars` being `None` is not modelled, because Ansible always passes a variable dict. Task argument values and task variable values, including the engine, are limited to `None`, booleans, integers and strings. So an unhashable engine value such as a list is not modelled. For `container_engine: [podman]`, Python treats the engine as non-Podman at line 14, then the table lookup at line 24 raises `TypeError: unhashable type: 'list'`.
- The text of the `KeyError` for a missing `source` is Python's, not the plugin's. Only the key that was missing is recorded.
- The integer-to-text limit of current Python is not modelled. Python 3.11 and later (and the 3.7.14, 3.8.14, 3.9.14 and 3.10.7 security releases) refuse to print an integer of more than 4300 decimal digits, so the f-string at line 22 raises `ValueError` before the `AnsibleError` is built. The limit depends on the interpreter version and can be changed at run time. The members below are affected.
- ContainerImage.UnsupportedSourceMessageNamesValue: gives a message for every integer `source`, including one of more than 4300 digits, for which Python raises `ValueError` instead.
- Values.ShowIntDenotes: gives canonical decimal digits for every integer, including one of more than 4300 digits, which Python 3.11 and later refuse to print.
- ContainerImage.PodmanUnsupportedSource: gives the unsupported-source error for every other `source` value, including an integer of more than 4300 digits, for which Python raises `ValueError` at line 22 instead. Nothing is delegated in either case.
- ContainerImage.Run: like `TranslateForPodman` and `Translate`, reports the unsupported-source error for an integer `source` of more than 4300 digits under Podman, where Python raises `ValueError`.
