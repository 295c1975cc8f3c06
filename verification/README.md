# Whiteboard engine and project list, in Dafny

This project models the interactive whiteboard of `script.js` and the
project-list handlers of `App.js`. Everything is an immutable value, and each
event handler is one pure function.

The whiteboard has four parts:

- **Scene.** An append-only list of drawn elements. Only the clear action
  shortens it, and it always clears the whole list.
- **View transform.** A scale and a pan offset. The scale is clamped to
  [0.1, 20].
- **Gesture state.** The flags `isDrawing`, `isPanning` and `isPinching`,
  together with the in-progress element, the last pan point and the pinch
  baseline distance.
- **Coordinate rule.** The rule that maps client points to world points
  (`getPosition`) and its inverse, which the renderer applies.

All arithmetic in the modelled handlers is `+ - * /` and min/max, so the
model works exactly over `real`; the one square root (`getTouchDistance`) is
supplied by the host as a parameter. The zoom-anchor and clamp properties therefore hold
exactly. No tolerance is needed.

The host supplies three things as parameters, and the model does not compute
them:

- the canvas's client offset (`rect.left`, `rect.top`);
- the canvas size;
- the distance between two touch contacts, which the source gets from
  `Math.sqrt`.

The same goes for the fresh id that `Date.now()` supplies in `App.js`.

Modules:

- `Geometry` (geometry.dfy): points and the midpoint of two contacts.
- `View` (view.dfy): the view state and the screen↔world rules. It also holds
  the clamp, `zoomAtPoint`, panning, reset, and the wheel and button
  multipliers.
- `Scene` (scene.dfy): the tools and elements, the growth of an element during
  a gesture, the commit test, and the paint order.
- `Gesture` (gesture.dfy): the board state and one step function per handler.
  These are `start`, `move`, `end`, `handlePinchZoom`, the wheel zoom, the
  button zoom, reset, clear and the tool, colour and brush setters.
- `Session` (session.dfy): runs of events and the properties that span
  several steps.
- `Projects` (projects.dfy): `handleSaveProject`, `handleDeleteProject`,
  `handleGoBack`, `handleLoginSuccess` and `handleLogout`. Here a project is a
  map from property names to values, and object spread is map union.
- `Wrappers` (wrappers.dfy): `Option`.

Where the code behaves in a way that is easy to misread, the model follows the code:

- **Pinch division by zero.** The code does not guard the pinch ratio against
  a zero baseline. The model therefore requires positive spreads (see
  "Left out").
- **Gesture flags.** The code keeps three independent flags, not one exclusive
  mode. For example, a third finger landing during a pinch starts a drawing
  while `isPinching` stays set. The model keeps the flags as the code has
  them.
- **Tool checks.** Two decisions use the *current* tool, not the element's own
  type: whether a drawing move appends or overwrites `points[1]`, and the
  commit test in `end`. So changing the tool in the middle of a gesture
  changes how the element grows. The model does the same.

## Model

| member | source | states |
|---|---|---|
| Geometry.Midpoint | script.js:39-44 | The pinch anchor is equally far from both contacts on each axis and lies between them. |
| View.ToWorld | script.js:142-150 | Screen to world: the world point computed for a client point is drawn back exactly under that client point by the renderer's transform. |
| View.ToScreen | script.js:59-61 | The renderer's transform: translate by pan times scale, then scale, then offset by the canvas origin. |
| View.WorldScreenRoundTrip | script.js:59-61 | The renderer's world-to-screen transform and getPosition are mutually inverse for any positive scale. |
| View.Clamp | script.js:274 | The clamped scale always lies in [0.1, 20]. It equals the input inside that range, 0.1 below it and 20 above it. |
| View.ZoomAtPoint | script.js:264-278 | Zoom anchor: for every multiplier, including 0, negative or huge ones, the new scale is the clamped product and the world point under the anchor is unchanged. |
| View.Pan | script.js:203-208 | A pan step keeps the scale and brings the world point that was under the last pan point under the new pointer, whatever the canvas origin. |
| View.PanComposes | script.js:203-208 | Pan steps compose: panning a→b and then b→c equals panning a→c in one step. |
| View.HomeIsIdentity | script.js:299-302 | Under the reset view, a world point is its client point minus the canvas origin. |
| View.ZoomRoundTrip | script.js:264-278 | Zooming by m and then by 1/m about the same anchor restores the view exactly, if the first zoom stays clear of the clamp. |
| View.ZoomDetermined | script.js:264-278 | The zoom result is the only view with the clamped scale that keeps the anchor's world point. |
| View.WheelFactor | script.js:258-262 | The wheel zooms out (multiplier 0.9) exactly when deltaY > 0, and in (1.1) otherwise. |
| View.ButtonFactor | script.js:292-293 | The zoom-in button multiplies by 1.2, the zoom-out button by 0.8. |
| View.CanvasCentre | script.js:294-296 | The zoom buttons' anchor is the midpoint of the canvas's corners in client space. |
| View.ButtonZoom | script.js:292-297 | A button zoom multiplies the scale by the button's factor, clamped, and keeps the world point under the canvas centre fixed. |
| View.ButtonsDrift | script.js:292-297 | The buttons are not inverse to each other: away from the bounds, zooming in then out leaves the scale at 0.96 of what it was, with the world point under the centre still fixed. |
| Scene.NewElement | script.js:174-187 | A new element carries the tool, colour and width. It has one point for freehand and two equal points for shapes. |
| Scene.Extend | script.js:215-220 | A freehand move appends exactly one point and keeps the earlier points. A shape move writes points[1], keeps points[0] and keeps the length at 2, or above 2 if it already was. |
| Scene.Commits | script.js:237-239 | The commit test admits only elements with at least two points, so the scene keeps only committed elements. A tap's two equal points pass only for the freehand tool. |
| Scene.Commit | script.js:237-241 | A finished element is appended at the end exactly when the commit test passes: more than one point, and either the freehand tool or differing endpoints. Otherwise the scene is unchanged. |
| Scene.Paint | script.js:63-67 | Redraw paints the scene in list order, then the in-progress element only while drawing. |
| Gesture.InitialValid | script.js:9-27 | The page-load state satisfies the board invariant: scale in range, an element while drawing, a positive baseline while pinching, only committed elements in the scene. |
| Gesture.Start | script.js:153-188 | A two-contact start sets pinching, clears drawing and panning and records the spread. With the drag tool, start pans and creates no element. With any other tool, start creates an element whose points lie under the pointer, leaving lastPan alone. A one-pointer start keeps the pinching flag and baseline, so a third finger during a pinch draws while pinching stays set. Colour and brush never change. |
| Gesture.PinchZoom | script.js:248-256 | A pinch step scales by the ratio of new to previous spread, clamped, keeps the world point under the contacts' midpoint fixed, and takes the new spread as baseline. |
| Gesture.Move | script.js:190-222 | Move is a pinch step under two contacts while pinching. Otherwise it drags the world point under the last pan point to the pointer while panning, changing only the view and lastPan. While drawing it grows the element and changes nothing else, and when idle it changes nothing. |
| Gesture.End | script.js:224-245 | End appends the element if and only if it was drawing and the commit test passes. Earlier elements and the view never change. Drawing and panning end, and pinching ends on a touch end leaving fewer than two contacts. Only the flags, the scene and the in-progress element change; style, lastPan and the pinch baseline are kept. |
| Gesture.WheelZoom | script.js:258-262 | A wheel step zooms about the cursor, keeping the world point under it, and changes nothing else. |
| Gesture.ZoomButton | script.js:292-297 | A button zoom keeps the world point under the canvas centre and changes nothing else. |
| Gesture.ResetView | script.js:299-305 | Reset makes every world point its client point minus the origin, and leaves the scene and gesture unchanged. |
| Gesture.Clear | script.js:361-364 | Clear empties the scene and leaves the view and gesture unchanged. |
| Gesture.SetTool | script.js:307-317 | Choosing a tool changes the tool and nothing else: the in-progress element, the scene, the view and the gesture flags are kept. |
| Gesture.SetColor | script.js:352-358 | Choosing a colour changes the colour and nothing else: the in-progress element, the scene, the view and the gesture flags are kept. |
| Gesture.SetBrush | script.js:351 | Choosing a brush size changes the brush size and nothing else: the in-progress element, the scene, the view and the gesture flags are kept. |
| Session.Dispatch | script.js:320-376 | Every handler keeps the board invariant, and every handler other than clear keeps the old scene as a prefix. |
| Session.Run | script.js:320-376 | After any sequence of events, each seeing its own canvas geometry, the board invariant holds. In particular the scale lies in [0.1, 20] after any number of zooms. |
| Session.AppendOnly | script.js:240 | Without a clear, the scene before any run of events is a prefix of the scene after it. |
| Session.PanTelescopes | script.js:203-208 | A panning gesture's moves add up to one pan from the pan anchor to the final pointer position, even when the canvas moves between events, and the anchored world point ends under the final pointer for every canvas origin. |
| Session.PinchTracksSpread | script.js:248-256 | While no pinch step reaches the clamp, the ratio of scale to pinch baseline stays the same and the baseline ends at the last spread. |
| Session.PinchStep | script.js:248-256 | One unclamped pinch step keeps the ratio of scale to baseline. |
| Session.PinchFollowsSpread | script.js:248-256 | An unclamped pinch ends at the initial scale times the ratio of final to initial spread. |
| Session.PinchAbandons | script.js:156-161 | An element abandoned by a two-contact start is never committed by the following end, and is not painted. |
| Session.ClearPaintsOnlyCurrent | script.js:361-364 | After a clear, redraw paints only the in-progress element, and only while drawing. |
| Session.EndPaintsScene | script.js:63-67 | After an end, redraw paints exactly the scene. |
| Session.TapDiscarded | script.js:237-241 | A start followed directly by an end commits nothing: one point for freehand, two equal points for shapes. |
| Session.ShapeDragCommits | script.js:215-241 | A shape drag between two different pointer positions leaves the old scene followed by exactly one element. It has the tool's kind, colour and width, and spans the world points under the two positions. |
| Session.RectangleScenario | script.js:237-241 | With the home view and the canvas at the client origin, dragging the rectangle tool from (10,10) to (50,50) appends exactly the rectangle with those corners, in the current colour and width. |
| Session.HomeDragCommits | script.js:215-241 | With the home view and the canvas at the client origin, a shape drag between two different client points commits the element whose corners are exactly those points. |
| Session.OriginHomeIsIdentity | script.js:142-150 | With the canvas at the client origin, the home view maps every client point to itself. |
| Session.ResetScenario | script.js:299-302 | Reset from scale 4.2 and pan (120, −40) gives exactly {1, 0, 0} and keeps the scene. |
| Session.PinchScenario | script.js:248-256 | A spread going from 100 to 200 at scale 1 about (300,300) doubles the scale and keeps the world point under (300,300). |
| Projects.Spread | App.js:52 | `{...p, ...d}` has the keys of both objects. Properties of d win, and the other properties of p are kept. |
| Projects.Truthy | App.js:51 | `if (projectData.id)`: every id is truthy except undefined, the empty string and zero. |
| Projects.SaveEdit | App.js:51-53 | Saving with an id keeps the length. Each entry whose id matches becomes its spread with the saved data; every other entry is unchanged in place. Every id stays where it was. |
| Projects.NewProject | App.js:55-61 | The created project has the fresh id, taskCount 0, progress 0, the user's initials as the only team member, and the saved data's other properties. |
| Projects.SaveProject | App.js:50-65 | Saving with an id runs the edit and clears the project being edited. Saving without one appends exactly one new project at the end, keeps the earlier ones and leaves the creation form. |
| Projects.Remove | App.js:67-69 | Delete leaves no entry with the id, and drops exactly as many entries as carried the id. |
| Projects.RemoveKeepsOthers | App.js:67-69 | An entry survives a delete if and only if it was in the list and carries a different id. |
| Projects.RemoveConcat | App.js:68 | Delete keeps the order of the survivors: deleting from a concatenation deletes from each part. |
| Projects.RemoveAbsent | App.js:68 | Deleting an id that no entry carries leaves the list unchanged. |
| Projects.DeleteUndoesCreate | App.js:55-68 | Deleting the fresh id of a just-created project restores the list. |
| Projects.DeleteUndoesAppend | App.js:67-69 | Deleting the id of an entry just appended, which no earlier entry carries, restores the list. |
| Projects.SaveEditIdempotent | App.js:51-52 | Saving the same edit twice equals saving it once. |
| Projects.DeleteProject | App.js:67-69 | After a delete, no project carries the deleted id. Nothing else in the state changes. |
| Projects.GoBack | App.js:75-79 | Go back clears the selected project, the creation flag and the project being edited, and nothing else. |
| Projects.GoBackKeepsSession | App.js:75-79 | Going back twice equals going back once, and it keeps the projects, the user, the login flag and the sidebar page. |
| Projects.LoginSuccess | App.js:34-37 | Login stores the user and marks the session logged in. |
| Projects.Logout | App.js:44-48 | Logout forgets the user, marks the session logged out, shows the dashboard and keeps the projects. |
| Projects.LoginLogout | App.js:34-48 | Logging out right after logging in gives the same state as logging out directly. |

## Left out

- Canvas drawing calls (`ctx.*`), the per-type shape geometry in `drawElement`, `resizeCanvas`, cursor and CSS class toggling: rendering side effects. Only the paint order is modelled.
- `getTouchDistance`: `Math.sqrt` is not modelled. The spread of two contacts is a host-supplied positive real.
- Gesture.PinchZoom: requires a positive baseline and a positive new spread. The source does not guard the division by the baseline. A zero new spread is itself harmless (multiplier 0, scale clamped to 0.1), but it becomes the next step's baseline, and that step divides by zero: IEEE floating point gives an infinite multiplier (clamped to 20) or, for 0/0, NaN, which `real` cannot express. The model requires `spread > 0` so that every baseline stays positive.
- Gesture.Start: requires a touch event to have at least one contact, as touchstart and touchmove always do. A touch list that the source indexes out of range is not modelled.
- `updateCoordinates`: the coordinate readout is display only, with rounding, `toFixed` and a truthiness test that skips zero coordinates.
- The theme, dropdown and fullscreen listeners: DOM wiring with no whiteboard state.
- Gesture.SetBrush: the brush-size input stores the input element's string value. The model stores it as a number.
- Floating-point rounding: every quantity is an exact real, so the zoom round trip and the anchor hold exactly, not within tolerance.
- `Components.js`: React presentation, including the form that builds the saved data, and network calls for login and team.
- React rendering and effects in `App.js`: the resize listener, the view selection in JSX and the theme toggle.
- Projects.Remove, Projects.SaveEdit: compare ids by value. JavaScript's `!==` and `===` compare arrays and objects by reference, but ids are strings, so the two agree for every id the application produces.
- Projects.SaveProject: requires a logged-in user when the saved data has no truthy id. The source would throw a TypeError reading `user.initials` (App.js:60); the model drops that exception path because the project form is rendered only after login, so the case cannot arise from the interface.
- Projects.Value: numbers are modelled as integers. Task counts and progress are whole numbers in the application.
- The server side (`routes/projects.js`, `models/Project.js`, `server.js`, `db.js`): HTTP, ORM and database I/O.
