# learnopengl-cpp core, modelled in Dafny

This project models the core of learnopengl-cpp, a small OpenGL renderer:

- the camera with its lazily cached view and projection matrices;
- the auto-rotating (orbit) camera controller;
- the GLFW input receiver and the key and mouse-button translation tables;
- the mouse-button bit set;
- the move-only `UniqueEntity` owner of GL object names;
- the uniform-location cache of `StatefulShaderProgram`;
- `TextureData` and texture loading;
- box-mesh construction;
- the comma-joining utilities, GL error naming, the polygon-mode toggle and the Boost version split.

Each core source file has one module. Its shape follows the source:

- Objects whose fields change in place are classes, with `modifies` frames. These are `Camera`, `AutoRotatingCameraController`, `MouseState`, the receiver singleton, `UniqueEntity`, `StatefulShaderProgram` and `TextureData`.
- Loops are methods proved against a specification function. These are `MakeCommaSeparatedList`, `VerticesToVertexData`, the vertex loop of `CreateAabbMesh` and `CreateMany`.
- Pure code is functions and lemmas.

How the foreign parts are modelled:

- **Matrices** are symbolic. A `Mat4` value records which glm constructor built it and from which arguments.
- **Floats** are `real`. `std::fmod` is computed exactly, as `x - y·trunc(x/y)`.
- **Calls into GL, GLFW and stb_image** become parameters: the `Trig` oracle, the `KeyBackend`, `glLocation` and the `decode` function. They can also be the values those calls returned (`UniqueEntity.Create`'s `v`).
- **`UniqueEntity`'s traits** are a ghost `EntityTraits` object. It logs every created and destroyed value and records which handle owns each live value. Its invariant says that every creation ends in exactly one destruction unless a handle still owns the value.

## Model

| member | source | states |
|---|---|---|
| Cameras.Camera.constructor | src/camera/Camera.cpp:24-31 | a new camera holds the given settings and projection, and both matrix caches are empty |
| Cameras.Camera.MutableLookAtSettings | src/camera/Camera.cpp:42-47 | handing out the settings for writing empties the view-matrix cache and keeps the cache invariant |
| Cameras.Camera.MutableProjection | src/camera/Camera.cpp:54-59 | handing out the projection for writing empties the projection-matrix cache |
| Cameras.Camera.SetLookAtSettings | src/camera/Camera.cpp:42-47 | writing through the mutable accessor replaces the settings and leaves the view cache empty |
| Cameras.Camera.SetProjection | src/camera/Camera.cpp:54-59 | writing through the mutable accessor replaces the projection and leaves its cache empty |
| Cameras.Camera.GetLookAtMatrix | src/camera/Camera.cpp:61-68 | returns the look-at matrix of the current settings and caches it; a cached matrix is returned unchanged |
| Cameras.Camera.GetProjectionMatrix | src/camera/Camera.cpp:70-77 | returns the matrix of the current projection and caches it; a cached matrix is returned unchanged |
| Cameras.ReadAfterUpdates | src/camera/Camera.cpp:42-68 | after any run of look-at updates, the view matrix is that of the last update: no stale cache survives |
| Cameras.CachesAreIndependent | src/camera/Camera.cpp:42-77 | updating the look-at settings does not disturb the cached projection matrix |
| Projections.CreateMatrixFromProjection | src/camera/projections.cpp:12-35 | orthographic projections give a symmetric ortho box with the projection's width, height and planes; perspective ones give a perspective matrix of fov, aspect and planes |
| Controllers.Fmod | src/camera/controllers.cpp:34 | fmod by a positive modulus lies strictly between minus and plus the modulus, with the dividend's sign |
| Controllers.AutoRotatingCameraController.constructor | src/camera/controllers.cpp:14-25 | starts at radius RadiusBase and angle 0 and writes the orbit look-at to the camera once, invalidating its view cache |
| Controllers.AutoRotatingCameraController.Update | src/camera/controllers.cpp:31-39 | the angle becomes fmod(angle + dt·AngularSpeed, 2π), so its magnitude stays below 2π; the radius takes one input step; the camera gets the orbit look-at and its view cache is invalidated |
| Controllers.AutoRotatingCameraController.ProcessInput | src/camera/controllers.cpp:45-56 | the radius grows by dt·RadiusChangeFactor if below the maximum with Down held, otherwise shrinks by it if above the minimum with Up held, otherwise stays |
| Controllers.AutoRotatingCameraController.UpdateCameraLookAt | src/camera/controllers.cpp:58-71 | the camera's settings become the eye (r·sin a, 0, r·cos a) looking at the origin with Y up, and the view cache is invalidated |
| Controllers.DownWinsOverUp | src/camera/controllers.cpp:52-55 | with both keys held below the maximum, the radius grows |
| Controllers.RadiusNeedsAKey | src/camera/controllers.cpp:52-55 | with no key held the radius is unchanged; any change comes from a key branch whose bound check passed |
| Controllers.RadiusCanOvershootMaximum | src/camera/controllers.cpp:47-55 | the bound is checked before the step, so one frame can carry the radius past the maximum (5 + 0.75·2 > 6) |
| Controllers.NextRadiusWithinOneStep | src/camera/controllers.cpp:47-55 | for a positive step, a radius less than one step outside [min, max] stays less than one step outside |
| Controllers.RadiusAfterWithinOneStep | src/camera/controllers.cpp:45-56 | over any number of frames with any keys held, the radius stays less than one step outside [min, max] |
| Controllers.BaseRadiusWithinOneStep | src/camera/controllers.cpp:21 | the starting radius RadiusBase lies within the bounds |
| Controllers.RunFrames | src/camera/controllers.cpp:31-39 | running Update frame by frame leaves the radius the pure frame-by-frame radius, within one step of the bounds |
| KeyMapping.KeyFromGlfw | src/utils/glfw/key_mapping.cpp:28-35 | a GLFW code in the table maps to its key; every other code maps to Unknown, and only those do |
| KeyMapping.TableEntries | src/utils/glfw/key_mapping.cpp:11-22 | the table holds exactly the ten codes, Escape, Z, W, S, A, D and the four arrows, each mapped to its key |
| KeyMapping.KeyFromGlfwInjectiveOnTable | src/utils/glfw/key_mapping.cpp:11-22 | different table codes map to different keys |
| KeyMapping.EveryKnownKeyHasACode | src/utils/glfw/key_mapping.cpp:11-22 | every key but Unknown is the translation of some GLFW code |
| Mouse.IsPressed | src/input/MouseState.h:47-50 | NONE is never pressed; ANY is pressed iff some button is; a single button is pressed exactly when its bit is set in the pressed flags |
| Mouse.WithButton | src/input/MouseState.h:52-66 | setting a button makes it pressed, clearing makes it not pressed, and clearing ANY releases everything |
| Mouse.WithButtonIdempotent | src/input/MouseState.h:52-66 | setting or clearing the same button twice equals doing it once |
| Mouse.OtherButtonsUnchanged | src/input/MouseState.h:52-66 | setting or clearing one button does not change whether another button is pressed |
| Mouse.MouseState.constructor | src/input/MouseState.h:37-43 | the cursor is at the origin, there is no delta yet, and no button is pressed |
| Mouse.MouseState.SetMouseButtonPressed | src/input/MouseState.h:52-66 | the pressed set becomes the updated bit set, so the button's state is the one requested |
| MouseButtonMapping.MouseButtonFromGlfw | src/utils/glfw/mouse_button_mapping.cpp:21-28 | the result is always one single button, never NONE or ANY, and UNKNOWN exactly for codes outside the table |
| MouseButtonMapping.TableEntries | src/utils/glfw/mouse_button_mapping.cpp:11-15 | left, right and middle map to LEFT, RIGHT and MIDDLE, and different codes map to different buttons |
| Receivers.SignalsFor | src/input/receivers.cpp:63-78 | a key event emits one signal, the translated key, exactly when it is a press, and nothing otherwise |
| Receivers.NoPressNoSignals | src/input/receivers.cpp:74-75 | a run of releases and repeats emits nothing |
| Receivers.SignalsAreTranslatedPresses | src/input/receivers.cpp:74-77 | every emitted key is the translation of some press in the run, and no run emits more keys than it has events |
| Receivers.GlfwInputReceiver.constructor | src/input/receivers.cpp:31-35 | the receiver is bound to the given window and has emitted nothing |
| Receivers.GlfwInputReceiver.IsKeyDown | src/input/receivers.cpp:41-44 | a key is down when GLFW reports it pressed for the receiver's window, and not when it reports release or repeat |
| Receivers.InputReceiverSingleton.constructor | src/input/receivers.cpp:12 | before initialisation the static instance is null and no key callback is registered |
| Receivers.InputReceiverSingleton.GetInstance | src/input/receivers.cpp:18-25 | only callable once the instance exists; returns it |
| Receivers.InputReceiverSingleton.InitializeInstance | src/input/receivers.cpp:50-57 | only callable once, with a window; registers the callback on that window and creates a fresh receiver bound to it |
| Receivers.InputReceiverSingleton.OnGlfwKeyEvent | src/input/receivers.cpp:63-78 | the signal log grows by exactly what the event emits |
| Receivers.InputReceiverSingleton.DispatchAll | src/input/receivers.cpp:63-78 | delivering a run of events grows the signal log by the emissions of the run, in order |
| Unique.EntityTraits.DestroyedAtMostOncePerCreation | src/gl/wrappers/unique.h:140-150 | no value is destroyed more often than it was created, and an owned value has one creation not yet destroyed |
| Unique.UniqueEntity.constructor | src/gl/wrappers/unique.h:40 | a default handle holds nothing |
| Unique.UniqueEntity.FromValue | src/gl/wrappers/unique.h:49-55 | wrapping a created value records its creation and makes the new handle its owner |
| Unique.UniqueEntity.Moved | src/gl/wrappers/unique.h:61-68 | move construction needs a set source; the new handle takes the value and becomes its owner, and the source is unset; nothing is created or destroyed |
| Unique.UniqueEntity.MoveAssign | src/gl/wrappers/unique.h:72-81 | the target's old value is destroyed once, the target takes the source's value, and the source is unset; a self-move destroys the value and leaves the handle unset |
| Unique.UniqueEntity.Create | src/gl/wrappers/unique.h:85-89 | returns a fresh set handle owning the newly created value |
| Unique.UniqueEntity.CreateManyFromRaw | src/gl/wrappers/unique.h:91-107 | needs exactly count raw values; returns count fresh handles, the i-th owning the i-th value, all recorded as created and none destroyed |
| Unique.UniqueEntity.CreateMany | src/gl/wrappers/unique.h:109-122 | Create called count times gives count fresh set handles, in the order of the values created |
| Unique.UniqueEntity.WrapNext | src/gl/wrappers/unique.h:104-105 | one pass of the wrapping loop: the next raw value becomes one more fresh handle, recorded as created and owned by it, and the later values stay unowned |
| Unique.UniqueEntity.CreateNext | src/gl/wrappers/unique.h:119-120 | one pass of the creating loop: Create's value becomes one more fresh handle, recorded as created and owned by it, and the later values stay unowned |
| Unique.HandlesValid | src/gl/wrappers/unique.h:91-122 | every handle CreateMany returns is valid: it owns its value and the traits' record stays balanced |
| Unique.UniqueEntity.IsSet | src/gl/wrappers/unique.h:135-138 | a handle is set exactly when it holds a value |
| Unique.UniqueEntity.Get | src/gl/wrappers/unique.h:126-131 | converting to the raw value needs a set handle and yields its value |
| Unique.UniqueEntity.Reset | src/gl/wrappers/unique.h:140-150 | a held value is destroyed exactly once and the handle is unset; an unset handle destroys nothing |
| Unique.MovedValueIsDestroyedOnce | src/gl/wrappers/unique.h:61-68 | a value handed over by move construction is destroyed once in total, and the moved-from handle destroys nothing |
| Unique.MoveAssignedValuesAreDestroyedOnce | src/gl/wrappers/unique.h:72-81 | with move assignment, the target's old value and the moved value are each destroyed exactly once |
| ShaderProgram.Lookup | src/gl/StatefulShaderProgram.cpp:88-111 | a hit returns the cached location; a miss returns GL's location; only the queried name with a valid location is added; no entry changes; no invalid location enters |
| ShaderProgram.CacheOnlyGrows | src/gl/StatefulShaderProgram.cpp:105 | over any run of lookups, existing entries are kept unchanged and every new key is a name that was looked up |
| ShaderProgram.NeverCachesInvalid | src/gl/StatefulShaderProgram.cpp:95-105 | over any run of lookups, the cache never holds the location -1 |
| ShaderProgram.CacheIsTransparent | src/gl/StatefulShaderProgram.cpp:88-111 | a cache filled from GL keeps agreeing with GL, so every lookup returns what GL would |
| ShaderProgram.CachedLocationIsStable | src/gl/StatefulShaderProgram.cpp:90-110 | once a name is cached, later lookups of it return the same location, whatever is looked up in between |
| ShaderProgram.StatefulShaderProgram.constructor | src/gl/StatefulShaderProgram.cpp:73-77 | needs a set program handle, takes it over (the argument is left unset), and starts with an empty cache |
| ShaderProgram.StatefulShaderProgram.GetUniformLocation | src/gl/StatefulShaderProgram.cpp:88-111 | the location and the new cache are those of Lookup on the old cache, and no invalid location is ever cached |
| Textures.DataSize | src/textures/TextureData.cpp:72-84 | a byte vector's size is its length; a decoder buffer's is Width·Height·ChannelsCount, non-negative for non-negative dimensions |
| Textures.TextureData.constructor | src/textures/TextureData.cpp:9-14 | the texture holds the given storage and metadata |
| Textures.TextureData.Moved | src/textures/TextureData.cpp:20-25 | move construction takes storage and metadata and leaves the source without storage |
| Textures.TextureData.MoveAssign | src/textures/TextureData.cpp:27-35 | the target takes the source's storage and metadata, and the source is left without storage |
| Textures.TextureData.CreateFromBytes | src/textures/TextureData.cpp:41-44 | the texture holds the bytes and the metadata; its data is those bytes and its size is their count |
| Textures.TextureData.CreateFromStbImage | src/textures/TextureData.cpp:46-52 | the texture owns the decoder buffer; its data is that buffer and its size is Width·Height·ChannelsCount |
| Textures.TextureData.GetData | src/textures/TextureData.cpp:58-70 | needs storage present; points at the vector's bytes or the decoder buffer, whichever is stored |
| Textures.TextureData.GetDataSize | src/textures/TextureData.cpp:72-84 | needs storage present; is the DataSize of the storage and metadata |
| Textures.TextureData.GetMetadata | src/textures/TextureData.cpp:86-89 | is exactly the metadata the texture was created or moved with |
| Textures.MoveKeepsData | src/textures/TextureData.cpp:20-25 | after a move the new owner reports the same data, size and metadata, and the source has no storage |
| Loading.TexturesDirIsDirectoryPrefix | src/textures/loading.cpp:47 | TEXTURES_DIR is "assets/textures/", which ends in '/' |
| Loading.GetFullTexturePath | src/textures/loading.cpp:45-51 | needs a non-empty name; the path is TEXTURES_DIR followed by the name |
| Loading.FullTexturePathIsInjective | src/textures/loading.cpp:50 | different file names give different paths |
| Loading.TextureLoadingException.Message | src/textures/loading.cpp:57-61 | the error message ends with the name of the file that failed |
| Loading.LoadTextureDataFromFile | src/textures/loading.cpp:20-39 | a failed decode of the full path gives a TextureLoadingException naming the file and no texture; a successful one gives a fresh texture owning the decoder buffer, with the decoded dimensions and SourceName the file name |
| Construction.DefaultVertex | src/meshes/construction.cpp:34-40 | a default vertex is at the origin, untinted (1,1,1), at uv (0,0) |
| Construction.AsVertexData | src/meshes/construction.cpp:42-49 | a vertex flattens to FLOATS_PER_VERTEX = 8 floats |
| Construction.VertexDataRoundTrip | src/meshes/construction.cpp:42-49 | the 8 floats read back through the attribute layout (position, tint, uv) give the vertex |
| Construction.VerticesToVertexData | src/meshes/construction.cpp:56-69 | the result has 8·n floats; floats 8k..8k+7 are vertex k's data and read back as vertex k |
| Construction.CornerIndexBijection | src/meshes/construction.cpp:116-120 | vertex indices 0..7 and min/max choices per axis correspond one to one through the three low bits |
| Construction.BoxCornersAreDistinct | src/meshes/construction.cpp:116-128 | in a box with extent on every axis the 8 vertices are at 8 different positions, each corner once |
| Construction.TintAndUvFollowCornerBits | src/meshes/construction.cpp:130-142 | with axis tint each tint component is 0 on the min side and 1 on the max side; without it the tint is (1,1,1); uv is the x and y choice as 0 or 1 |
| Construction.IndicesNameVertices | src/meshes/construction.cpp:145-158 | there are 36 indices, all below 8 |
| Construction.TrianglePairLiesOnFace | src/meshes/construction.cpp:145-158 | the six indices of triangle pair f all lie on one side of one axis |
| Construction.TrianglePairUsesFourCorners | src/meshes/construction.cpp:145-158 | each triangle pair uses exactly four distinct corners |
| Construction.FacesAreTheSixSides | src/meshes/construction.cpp:145-158 | the six pairs lie on six different faces, covering every side of the box |
| Construction.RenderDrawCall | src/meshes/Mesh.cpp:30-33 | indexed mesh data draws elements and other data draws arrays from vertex 0, each with the mesh's index count |
| Construction.VerticesRead | src/meshes/Mesh.cpp:30-33 | an element draw reads the vertices the indices name; an array draw reads consecutive vertices |
| Construction.AabbMeshDataAsWritten | src/meshes/construction.cpp:160-163 | the returned data counts the indices but is not marked indexed |
| Construction.AsWrittenBoxMeshReadsMissingVertices | src/meshes/construction.cpp:160-163 | as written, rendering the box draws arrays and reads vertices 8 to 35, which do not exist |
| Construction.AabbMeshData | src/meshes/construction.cpp:160-163 | the corrected data counts the indices and is marked indexed |
| Construction.BoxMeshReadsOnlyItsVertices | src/meshes/construction.cpp:145-163 | rendering the corrected box draws 36 elements, all among the 8 vertices |
| Construction.CreateAabbMesh | src/meshes/construction.cpp:110-164 | vertex i is box corner i; the index list is the constant one; the data counts 36 indices but, as written, is not marked indexed (see Findings) |
| Construction.CreateUnitCubeMesh | src/meshes/construction.h:19-37 | the flags pass through unchanged; the bounds are (0,0,0)..(1,1,1), or (-0.5,...)..(0.5,...) when centred; max − min is (1,1,1) either way |
| StringUtils.Join | src/utils/string_utils.cpp:7-23 | the join both list builders aim at: no strings give "", one gives itself, and n ≥ 1 give the summed lengths plus n−1 separators, starting with the first element |
| StringUtils.MakeCommaSeparatedListFromPack | src/utils/string_utils.h:5-21 | as overload resolution picks it: an empty pack gives ""; the result starts with the first argument; unless the last argument is a const std::string lvalue, it ends with ", " |
| StringUtils.Texts | src/utils/string_utils.h:15-16 | the texts of the pack's arguments, in order |
| StringUtils.PackJoinAsWritten | src/utils/string_utils.h:5-21 | the pack result is the intended join when the last argument is a const std::string lvalue, and that join followed by one ", " otherwise |
| StringUtils.LiteralPackHasTrailingSeparator | src/utils/string_utils.h:15-21 | two string literals "a.vert", "a.frag" give "a.vert, a.frag, ", and one literal "x" gives "x, " |
| StringUtils.CommaSeparatedListFromPack | src/utils/string_utils.h:10-21 | the corrected pack join: the one-string case ends the recursion for every kind of argument, which gives exactly Join of the texts with ", " |
| StringUtils.JoinEndsWithLast | src/utils/string_utils.cpp:7-23 | the join ends with the last string, with no separator after it |
| StringUtils.CorrectedPackEndsWithLastArgument | src/utils/string_utils.h:10-21 | the corrected pack join ends with the last argument's text, whatever kind of argument it is |
| StringUtils.JoinAppend | src/utils/string_utils.cpp:12-20 | appending a string to the list appends a separator (none if the list was empty) and the string to the join |
| StringUtils.ElementsInPlace | src/utils/string_utils.cpp:7-23 | element k appears unchanged at its offset in the join, so the elements keep their input order |
| StringUtils.SeparatorsBetween | src/utils/string_utils.cpp:7-23 | in the join, every element after the first is preceded by exactly one separator, so separators lie only between elements and none leads |
| StringUtils.MakeCommaSeparatedList | src/utils/string_utils.cpp:7-23 | the loop's result is the recursive join with the same separator |
| GlUtils.GlErrorToCStr | src/gl/utils.cpp:77-95 | each recognised code gets its own GL name; stack errors only with OpenGL 4.0; anything else gives "<UNRECOGNIZED>", and only that does |
| GlUtils.GlErrorNamesAreDistinct | src/gl/utils.cpp:81-90 | two recognised codes with the same name are the same code |
| GlUtils.StackErrorsNeedGl40 | src/gl/utils.cpp:85-88 | stack errors are unrecognised without OpenGL 4.0 and named with it; other codes are named the same either way |
| GlUtils.NextPolygonMode | src/gl/utils.cpp:49 | the new mode is FILL iff the front mode is LINE, and LINE otherwise |
| GlUtils.ToggleTwice | src/gl/utils.cpp:49 | toggling twice from LINE or FILL returns to the start |
| GlUtils.TogglePolygonMode | src/gl/utils.cpp:37-50 | GL reports up to two modes into slots preset to -1; whether or not a second mode agrees, it sets NextPolygonMode of the front slot, which is LINE or FILL, and LINE when GL reports nothing |
| BoostUtils.CDiv | src/utils/boost_utils.cpp:9 | C++ division truncates toward zero and equals Euclidean division for non-negative dividends |
| BoostUtils.CMod | src/utils/boost_utils.cpp:11 | C++ remainder completes the division and takes the dividend's sign |
| BoostUtils.DecomposeBoostVersion | src/utils/boost_utils.cpp:7-14 | for a non-negative version, major ≥ 0, 0 ≤ minor < 1000 and 0 ≤ patch < 100 |
| BoostUtils.DecompositionRoundTrip | src/utils/boost_utils.cpp:9-11 | major·100000 + minor·100 + patch gives back the version, for every version |
| BoostUtils.ComposeDecompose | src/utils/boost_utils.cpp:9-11 | parts in range decompose back from the version they spell |

## Left out

- Windowing, the event loop, process setup and logging are I/O. This includes the warning `OnGlfwKeyEvent` logs for an event from another window. As written, that event is still dispatched, and the model does the same.
- GL, GLFW and stb_image calls have no checkable behaviour of their own:
  - `MakeIndexedVao` and the VAO/VBO uploads;
  - the GL draw calls in `Mesh::Render`, except the choice between them;
  - `Use` and uniform value setting;
  - shader compilation;
  - the traits' Create and Destroy;
  - `stbi_load`, which is the `decode` parameter.
- glm's matrix arithmetic, `sin` and `cos` are foreign numerics. Matrices are symbolic, and sin and cos are an oracle (`Trig`). A symbolic matrix records only which glm call built it and with which arguments. Nothing is claimed about whether different arguments give equal matrices: glm::lookAt, for one, depends on the target only through the normalised direction from the eye.
- IEEE float rounding is not modelled: all float arithmetic, including `fmod` and the constant π, is exact on reals.
- `FlyCameraController` is only declared and has no definitions, so it is not part of this model.
- `input.h` (`IInputReceiver`), `Key.h` and `KeyToGlfw` are not part of this model. The controller takes the set of held keys, and `IsKeyDown` takes `keyToGlfw` and `glfwGetKey` as parameters.
- The definition of `COMMA_SEPARATOR` is not part of this model. `MakeCommaSeparatedList` takes the separator as a parameter.
- Controllers.AutoRotatingCameraController.Update: the angle is not wrapped into [0, 2π), and the radius is not clamped to [RadiusBase − RadiusMaxDelta, RadiusBase + RadiusMaxDelta]. The model follows the code:
  - `fmod` keeps the sign of a negative angle, so only |angle| < 2π holds;
  - the bound is checked before the step, so the radius can end up to one step outside (`RadiusCanOvershootMaximum`).
- Controllers.AutoRotatingCameraController.UpdateCameraLookAt: `Settings.Target` is not used, because the code always looks at the origin.
- Textures.TextureData.GetDataSize: Width·Height·ChannelsCount is computed on unbounded integers. The overflow of the source's `int` product and its conversion to `size_t` are not modelled.
- Textures.TextureData.GetData: a decoder buffer is known by its address. Its contents belong to the decoder and are not modelled.
- Unique.UniqueEntity.Create: the value GL hands out is a parameter, assumed not to be owned by a live handle. GL never returns a live name twice.
- Construction.CreateAabbMesh: the model implements the three-parameter definition in `construction.cpp`. The five-parameter declaration in `construction.h` has no definition; `CreateUnitCubeMesh` is modelled as the arguments it passes to it. The returned `MeshData` omits the VAO handle.
- Receivers.InputReceiverSingleton.InitializeInstance: the null window that the receiver's constructor asserts against is a precondition.
- Debug assertions. Some assertions state what the caller must pass or must have set up first. These become a `requires`: the null instance in `GetInstance`, the single call and the non-null window of `InitializeInstance`, the empty name in `GetFullTexturePath` and the unset source of a move. `CreateManyFromRaw`'s check on the size of the traits' raw result is an assumption about foreign code, so it is a `requires` too. Three assertions fire on a case the function then handles in a release build. Those are left out, and the model follows the release path:
  - `GlErrorToCStr` returns "<UNRECOGNIZED>" (src/gl/utils.cpp:93-94);
  - `GetUniformLocation` returns -1 and caches nothing (src/gl/StatefulShaderProgram.cpp:100);
  - `TogglePolygonMode` uses the front-face mode even when the two reported modes disagree (src/gl/utils.cpp:47).
- StringUtils.MakeCommaSeparatedListFromPack: which overload a call selects is modelled by one flag per argument: whether the argument is a const std::string lvalue. Other argument types that convert to std::string are treated like string literals.
- `TEXTURES_DIR`'s assertion in `GetFullTexturePath` reads `back()` before checking `empty()`. The constant is not empty, so the model checks it once, as a lemma.

## Findings

| source | as written | input that shows it | evidently intended | confidence | as-written member | corrected member |
|---|---|---|---|---|---|---|
| src/meshes/construction.cpp:160-163 | `MeshData{vao, indices.size()}` leaves `IsIndexed` value-initialised to false, so `Mesh::Render` calls `glDrawArrays(mode, 0, 36)` on a buffer of 8 vertices | any call, e.g. `CreateAabbMesh((0,0,0), (1,1,1), false)` | the mesh is marked indexed, so `glDrawElements` draws the 36 indices | medium, not executed | Construction.AsWrittenBoxMeshReadsMissingVertices | Construction.BoxMeshReadsOnlyItsVertices |
| src/utils/string_utils.h:10-21 | the last argument selects the one-string overload only if it is a const std::string lvalue. A literal, a non-const lvalue or an rvalue binds better to the forwarding-reference template, which appends ", " and recurses into the nullary overload | `MakeCommaSeparatedListFromPack("a.vert", "a.frag")` gives "a.vert, a.frag, " | the one-string case ends the recursion for every argument, giving "a.vert, a.frag" as `MakeCommaSeparatedList` would | high, not executed | StringUtils.LiteralPackHasTrailingSeparator | StringUtils.CommaSeparatedListFromPack |
