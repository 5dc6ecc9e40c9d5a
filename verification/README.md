# credential-store: a Dafny model of TokenStore

This project models `TokenStore` from `index.js`, a small helper that keeps
one credential token in one file. Constructing a store does four things:

- fills in default options;
- expands a leading `~` or `$HOME` in the storage directory;
- creates that directory, or fails when it is missing and `mkdir` is off;
- derives the token file name `filename[-md5(signature)].ext` and a
  "refresh" path.

`get` reads the file and parses it as JSON when `ext` is `"json"`.
`store` validates a token and overwrites the file. `destroy` unlinks the file.

The disk is abstract. It is a `FileSystem` object holding a set of directory
paths and a map from file path to contents. Its methods stand for the
`existsSync`, `mkdirSync`, `readFileSync`, `writeFileSync` and `unlinkSync`
calls. The home directory, the MD5 digest and the JSON codec (`parse`,
`stringify`) are passed in as uninterpreted parameters. JavaScript values
are the `Value` datatype (JSON data plus `undefined`), with JavaScript
truthiness.

Files:

- `wrappers.dfy`: Option, Result and Outcome.
- `text.dfy`: the string built-ins the store uses, which are the
  first-occurrence `replace` with a string pattern and `Array.prototype.join`.
- `js_values.dfy`: values, truthiness, the `token.refresh_token` read, and
  `Object.assign`.
- `token_paths.dfy`: the pure path derivation of the constructor.
- `token_store.dfy`: the abstract disk, the `TokenStore` class and the
  specification functions of `get` and `store`, with lemmas relating them.

The resolved path and the refresh path are `const` fields, so they are
fixed for the life of a store. `hasRefresh` is the one mutable field. It
is false after construction. `Get` and `Destroy` cannot write it.
`Store` declares it in its frame, because the source assigns it, and
proves it unchanged.

These behaviours of the code are modelled as written:

- `store` on a JSON object with a truthy `refresh_token` builds
  `{ refresh_token }` from a name that is not bound (index.js:87).
  Reading that name throws a ReferenceError before anything is written. So the
  refresh file is never written and `has_refresh` never becomes true.
- The refresh path replaces the first `token` anywhere in the resolved path
  (index.js:48), not only in the file name. A home directory containing
  `token` gets the replacement instead of the file name.
  `DefaultRefreshPath` therefore requires a home directory without `token`.
- `get` does return the contents it read (index.js:78).
- The dead `has_refresh` branch of `get` re-reads the token file itself
  (index.js:73), not the refresh file. `GetIgnoresRefreshFile` and
  `RefreshBranchReturnsPrimary` state the consequences.

## Model

| member | source | states |
|---|---|---|
| `TokenPaths.WithDefaults` | index.js:10-19 | each option the caller gives wins; each one left out takes its default (mkdir true, no signature, "token", "json", "$HOME/.credentials"); no options at all gives exactly the defaults |
| `TokenPaths.HomeMarkerLength` | index.js:22 | the anchored pattern of the expansion: 0 exactly when the path starts with neither marker, otherwise the length of the leading `~` or `$HOME` |
| `TokenPaths.ExpandHome` | index.js:22 | a path with a leading `~` or `$HOME` becomes the home directory followed by the rest of the path verbatim (one replacement); any other path is unchanged |
| `TokenPaths.ExpandHomeIsLeadingReplace` | index.js:22 | for a path with a leading marker, the marker is `~` or `$HOME` and the expansion equals replacing its first occurrence (the leading one) by the home directory |
| `TokenPaths.FileName` | index.js:35-45 | an empty signature gives `filename.ext`; a non-empty one gives `filename-H.ext` with H the digest of the signature joined by commas |
| `TokenPaths.DefaultFileName` | index.js:35-45 | with the default options the file name is `token.json` |
| `TokenPaths.SignedNameDeterminesDigest` | index.js:37-45 | two non-empty signatures give the same file name if and only if their digests are equal |
| `TokenPaths.UnsignedDiffersFromSigned` | index.js:37-45 | a name without signature never equals a signed name with the same filename and ext |
| `TokenPaths.SignatureJoinCollision` | index.js:37-45 | two non-empty signatures with the same comma-joined text give the same file name, because elements are joined before hashing |
| `TokenPaths.CommaSignatureCollides` | index.js:40 | witness: the different signatures `["a,b"]` and `["a", "b"]` give the same file name |
| `TokenPaths.StorageDir` | index.js:22 | the expanded directory starts with the home directory when the configured path has a leading marker, and is the configured path otherwise |
| `TokenPaths.TokenPath` | index.js:47 | `path.resolve(dir, name)` for an absolute, normalised directory: the storage directory, a `/`, then exactly the file name |
| `TokenPaths.TokenPathUnderHome` | index.js:22-47 | a configured path beginning with `~` or `$HOME` resolves to a token path beginning with the home directory |
| `TokenPaths.DefaultTokenPath` | index.js:10-47 | with the default options the token path is `<home>/.credentials/token.json` |
| `TokenPaths.RefreshPath` | index.js:48 | `ReplaceFirst(p, "token", "token.refresh")`: only the first `token` anywhere in the path is replaced, and a path without `token` is unchanged |
| `TokenPaths.RefreshPathWithoutToken` | index.js:48 | a path without `token` is its own refresh path |
| `TokenPaths.RefreshPathWithToken` | index.js:48 | with `token` first at index i, the refresh path keeps the text before i, has `token.refresh` at i, keeps the text after, and differs from the path |
| `TokenPaths.DefaultRefreshPath` | index.js:48 | with default options and a home directory without `token`, the refresh path is `<home>/.credentials/token.refresh.json` |
| `Text.IndexOf` | index.js:48 | the result is the leftmost occurrence of the pattern, and None exactly when the pattern does not occur |
| `Text.Join` | index.js:40 | `join()` and `join('-')` (also index.js:45): empty for no parts, the part itself for one, the two parts around the separator for two; starts with the first part and is as long as the parts plus one separator per gap |
| `Text.JoinLast` | index.js:40 | for any signature of two or more parts, `join()` is the join of all but the last part, the separator, then the last part, so with `Text.Join`'s cases the hashed text is fixed for every length |
| `Text.ReplaceFirst` | index.js:48 | only the leftmost occurrence is replaced; a string without the pattern is unchanged |
| `JsValues.Truthy` | index.js:82 | JavaScript truthiness as `!token` (and the test at index.js:86) uses it: false exactly for undefined, null, false, 0 and the empty string |
| `JsValues.RefreshTokenOf` | index.js:86 | `token.refresh_token`: an object's own `refresh_token` field, and undefined for every value without one |
| `JsValues.Assign` | index.js:75 | `Object.assign(contents, refresh)` then a read of `contents`: TypeError exactly for a null or undefined target; an object target gets the union of fields with the source's winning; any other pairing leaves the target as it was |
| `TokenStores.FileSystem.Exists` | index.js:25 | `existsSync`: true for every directory and every readable file, and for nothing else |
| `TokenStores.FileSystem.Read` | index.js:57 | None (ENOENT) exactly when the file is absent, otherwise the file's contents |
| `TokenStores.FileSystem.Mkdir` | index.js:29 | the directory is added and the files are unchanged |
| `TokenStores.FileSystem.Write` | index.js:97 | the one file is created or overwritten with the text; nothing else changes |
| `TokenStores.FileSystem.Unlink` | index.js:101 | the one file is removed, and it fails exactly when the file was absent |
| `TokenStores.TokenStore.constructor` | index.js:47-50 | the path is the directory joined with the name, the refresh path is derived from it, and has_refresh is false |
| `TokenStores.TokenStore.Create` | index.js:9-51 | fails with DirectoryNotFound, whose message is the directory followed by " does not exist", if and only if the expanded directory does not exist and mkdir is off, and then creates nothing; otherwise the directory exists afterwards and is created only if missing; no file changes; the new store's paths are the derived ones and has_refresh is false |
| `TokenStores.GetResult` | index.js:53-79 | a missing file is TokenNotStored; with ext "json", unparsable text is InvalidJson and parsable text is returned parsed; with any other ext, the text is returned unchanged; without has_refresh these are the only failures; the two messages are "token has not been stored" and "token is not stored as valid json" |
| `TokenStores.TokenStore.Get` | index.js:53-79 | the result is GetResult of the current file table, and nothing is modified |
| `TokenStores.Serialize` | index.js:81-95 | fails with TokenRequired if and only if the token is falsy; TokenMustBeString if and only if it is a truthy non-string and ext is not "json"; RefreshTokenUnbound if and only if it is a truthy non-string with a truthy refresh_token and ext "json"; a string is written as is, anything else is stringified; the messages are "token must be provided" and "token must be a string" |
| `TokenStores.AfterStore` | index.js:97 | a successful store leaves exactly the serialised token at the token path; a failed one leaves the table unchanged; every other file is the same either way |
| `TokenStores.TokenStore.Store` | index.js:81-98 | fails exactly with Serialize's error; the file table becomes AfterStore of the old one; directories and has_refresh are unchanged |
| `TokenStores.TokenStore.Destroy` | index.js:100-102 | removes the token file, and fails exactly when it was absent; nothing else changes |
| `TokenStores.StoreStringWritesText` | test/test.js:116-127 | whatever the ext (the test uses the default "json"), storing a non-empty string leaves exactly that text in the token file |
| `TokenStores.StoreThenGetText` | index.js:53-98 | with ext other than "json", a non-empty string that was stored is read back unchanged |
| `TokenStores.StoreThenGetJson` | test/test.js:129-140 | with ext "json", a stored structure without a truthy refresh_token is read back as itself whenever the codec round-trips it |
| `TokenStores.NonJsonStoresOnlyStrings` | index.js:84-94 | with ext other than "json", store succeeds if and only if the token is a non-empty string |
| `TokenStores.StoreIdempotent` | index.js:97 | storing the same token twice leaves the same files as storing it once (overwrite, not append) |
| `TokenStores.DestroyThenGet` | index.js:56-61 | once the token file is removed, get fails with TokenNotStored |
| `TokenStores.GetIgnoresRefreshFile` | index.js:72-76 | get's result does not depend on the refresh file's contents |
| `TokenStores.RefreshBranchReturnsPrimary` | index.js:72-76 | for a JSON object, the has_refresh branch merges the token file into itself, so get returns the stored object |

## Left out

- Real I/O is replaced by the abstract `FileSystem`.
- `mkdirSync` failures are not modelled, so `FileSystem.Mkdir` always succeeds. These include a missing parent directory and permissions.
- `writeFileSync` failures are not modelled. These include a missing directory, a directory at the token path and a full disk.
- Non-ENOENT read errors are not modelled. The source's `catch` swallows them and carries on with `undefined`.
- A directory and a file may share a path in the model. The model does not check this.
- `FileSystem.Write` stores the string directly. UTF-8 encoding is not modelled.
- MD5 is an uninterpreted `md5` parameter, so facts that rest on the digest's values are not claimed. One such fact is that different comma-joined signature texts give different names. Different signatures can collide whatever the digest, as `CommaSignatureCollides` shows.
- The JSON codec is the uninterpreted pair `parse` and `stringify`. No round-trip law is claimed; `StoreThenGetJson` takes one as a hypothesis.
- `os.homedir()` is the `home` parameter.
- `TokenPaths.ExpandHome` treats the home directory as literal text. `String.prototype.replace` would interpret `$&`, `$$` and similar patterns inside it.
- `TokenPaths.TokenPath` joins with `/`. `path.resolve` also resolves against the working directory, collapses `..` and drops a trailing `/`; the model assumes an absolute, normalised directory and a file name with no `/` in it. `path.resolve` would also let an absolute name replace the directory and collapse `.`, `..` and repeated `/` inside the name.
- `TokenPaths.Options` takes signature elements as strings. `Array.prototype.join` would first convert other values, with `null` and `undefined` becoming `""`. A field passed explicitly as `undefined`, which `Object.assign` copies over the default, is not modelled.
- `JsValues.Value` has numbers as reals, so NaN is not represented. Functions, symbols and prototype chains are left out.
- `TokenStores.TokenStore.Store` treats `refresh_token` as unbound. If the program defined a global of that name, the name would resolve, the refresh file would be written and the flag set; that case is not modelled.
- `JsValues.Assign` does not copy the indexed properties of a string or array source into an object target. `Object.assign({}, "ab")` gives `{0: "a", 1: "b"}`, but the model keeps the target. The store never produces that pairing, because both sides are parsed from the same text. A non-empty string target with a string or array source also returns the target unchanged, where `Object.assign` throws a TypeError; the unreachable `has_refresh` branch can produce that pairing.
- `TokenStores.GetResult`: in the unreachable `has_refresh` branch, `Object.assign` merges objects into objects and throws on a null target. Every other target is returned unchanged. The TypeError that a string target with indexed source properties would raise is not modelled.
- The `opts` argument of `get` has no effect in the source and is not modelled.
- The `mock-fs` setup of test/test.js and concurrent or multi-process access are not modelled.
