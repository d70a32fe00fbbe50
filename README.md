# Suricate widget scheduling, slides, mappers and carousel — a Dafny model

This project models five pieces of the Suricate dashboard platform and proves properties of them.

- **Widget scheduler** (`NashornWidgetScheduler`). Each widget instance gets an execution future and a result future. The job registry maps each project widget id to weak references to that pair. `SchedulerModel` gives the scheduler state as a datatype, one pure transition function per operation, and the lemmas that relate the operations. `WidgetScheduler.NashornWidgetScheduler` is a class whose fields are updated in place. Each of its methods is proved to produce exactly the state its transition function gives.
  - A scheduled future is an opaque handle. Its status is `Pending`, `Done` or `Cancelled`.
  - Each executor is the set of handles it still holds. The remove-on-cancel policy means a cancelled handle leaves that set.
  - A weak reference is an `Option<Handle>`.
  - The random start delay is a value drawn from [30, 120). The methods return it as a ghost out-parameter.
- **Slide service** (`ProjectSlideService`). A class over a slide repository and an asset store. Both are maps from id to entity value.
- **Slide and user mappers** (`ProjectSlideMapper`, `UserMapper`). Pure functions. The foreign calls (`IdUtils.encrypt`, `getLibrariesToken`, `passwordEncoder.encode`) are function parameters.
- **Carousel rotation** (`CarouselDirective`). A class holding the current index and the template context.

Two quirks of the scheduler are modelled as the code has them and proved as lemmas:

- `schedule` overwrites a registry entry without cancelling the old pair. The old execution future stays pending in its executor, and no registry entry refers to it any more (`ScheduleOrphansPreviousJob`).
- `cancelWidgetInstance` never removes the registry entry. So `cancelProjectScheduling` leaves every registry entry in place; only their futures stop being pending (`CancelProjectEffect`).

One more consequence of the code is proved. `cancelAndSchedule` persists STOPPED first. `schedule` then writes RUNNING only when the request's own snapshot says STOPPED. So with a snapshot that says RUNNING, the widget ends with a live job while its persisted state is STOPPED (`CancelAndScheduleWithRunningSnapshot`).

`cancel` skips a future only when it is both done and cancelled (`!isDone() || !isCancelled()`). The model keeps that test literally. It cancels only pending futures, because `Future.cancel` does nothing on a completed one.

## Model

| member | source | states |
|---|---|---|
| SchedulerModel.Cancel | src/main/java/io/suricate/monitoring/service/scheduler/NashornWidgetScheduler.java:128-136 | A null or collected reference changes nothing. Otherwise the referenced future becomes cancelled if it was pending, and a finished one is left alone. No other future, no registry entry and no widget state changes. Only that future can leave either executor's queue. The invariant is kept. |
| SchedulerModel.CancelWidgetInstance | src/main/java/io/suricate/monitoring/service/scheduler/NashornWidgetScheduler.java:256-263 | Both futures of an existing entry are cancelled. An absent entry cancels nothing. The widget is always persisted STOPPED. The registry is unchanged, so the entry is not removed. Other futures are untouched, and only the entry's two futures can leave the executors' queues. |
| SchedulerModel.SelectDelay | src/main/java/io/suricate/monitoring/service/scheduler/NashornWidgetScheduler.java:204-209 | `start` gives a delay in [30, 120). Otherwise `init` gives exactly 2. Otherwise the delay is the request's own. `start` takes precedence over `init`. |
| SchedulerModel.Schedule | src/main/java/io/suricate/monitoring/service/scheduler/NashornWidgetScheduler.java:185-228 | A null request changes nothing. A non-executable request only persists STOPPED. An executable request persists RUNNING only when its snapshot is STOPPED. It submits two fresh pending futures at the same delay; the result future waits on the execution future. `jobs[id]` becomes exactly that pair and every other entry is kept. No earlier future is cancelled. The invariant is kept. |
| SchedulerModel.InitScheduler | src/main/java/io/suricate/monitoring/service/scheduler/NashornWidgetScheduler.java:141-160 | The registry is empty and both executors are new and empty. Every persisted widget state is STOPPED. The old futures are abandoned, not cancelled. |
| SchedulerModel.RunTask | src/main/java/io/suricate/monitoring/service/scheduler/NashornWidgetScheduler.java:215-219 | When an executor runs a queued future, that future becomes Done and leaves its queue. Nothing else changes, and the invariant is kept. |
| SchedulerModel.CancelAfterRunTask | src/main/java/io/suricate/monitoring/service/scheduler/NashornWidgetScheduler.java:128-136 | Once the executor has run a queued future, that future is done but not cancelled, so it passes the test in `cancel`, yet `cancel` on it changes nothing, because a completed future cannot be cancelled. |
| SchedulerModel.CancelWidgetInstanceIdempotent | src/main/java/io/suricate/monitoring/service/scheduler/NashornWidgetScheduler.java:256-263 | Cancelling a widget twice gives the same state as cancelling it once. |
| SchedulerModel.CancelAndScheduleReplacesJob | src/main/java/io/suricate/monitoring/service/scheduler/NashornWidgetScheduler.java:235-238 | For an executable request, `jobs[id]` ends as a fresh pair of pending futures at delay 2. Every future of the previous entry is no longer pending, and other entries are kept. |
| SchedulerModel.CancelAndScheduleWithRunningSnapshot | src/main/java/io/suricate/monitoring/service/scheduler/NashornWidgetScheduler.java:235-238 | If the request's snapshot says RUNNING, the widget ends persisted STOPPED while its new execution future is pending. |
| SchedulerModel.ScheduleOrphansPreviousJob | src/main/java/io/suricate/monitoring/service/scheduler/NashornWidgetScheduler.java:222-226 | Rescheduling a widget whose execution future is still queued leaves that future pending in the executor. No registry entry refers to it any more. |
| SchedulerModel.ScheduleListAppend | src/main/java/io/suricate/monitoring/service/scheduler/NashornWidgetScheduler.java:169-176 | Scheduling the list `a + b` equals scheduling `a` and then `b`, so requests take effect in list order. |
| SchedulerModel.ScheduleListEffect | src/main/java/io/suricate/monitoring/service/scheduler/NashornWidgetScheduler.java:169-176 | The invariant is kept. The registry keys become the old keys plus the ids of the non-null executable requests. Entries of other widgets are unchanged. Widgets the list does not mention keep their state. |
| SchedulerModel.CancelProjectEffect | src/main/java/io/suricate/monitoring/service/scheduler/NashornWidgetScheduler.java:245-249 | Every widget of the project ends STOPPED, and other widgets keep their state. The registry is unchanged. No future referenced by a project widget's entry is still pending. The invariant is kept. |
| WidgetScheduler.NashornWidgetScheduler.constructor | src/main/java/io/suricate/monitoring/service/scheduler/NashornWidgetScheduler.java:111-120 | The services are injected. The registry is empty and no executor exists yet. |
| WidgetScheduler.NashornWidgetScheduler.CancelReference | src/main/java/io/suricate/monitoring/service/scheduler/NashornWidgetScheduler.java:128-136 | The new state is `Cancel` of the old one, and the invariant is kept. |
| WidgetScheduler.NashornWidgetScheduler.InitScheduler | src/main/java/io/suricate/monitoring/service/scheduler/NashornWidgetScheduler.java:141-160 | The new state is `InitScheduler` of the old one: empty registry and every state STOPPED. |
| WidgetScheduler.NashornWidgetScheduler.Schedule | src/main/java/io/suricate/monitoring/service/scheduler/NashornWidgetScheduler.java:185-228 | The random draw is in [30, 120) when starting. The new state is `Schedule` of the old one with that draw. |
| WidgetScheduler.NashornWidgetScheduler.CancelAndSchedule | src/main/java/io/suricate/monitoring/service/scheduler/NashornWidgetScheduler.java:235-238 | The new state is `cancelWidgetInstance` followed by `schedule(request, false, true)`. |
| WidgetScheduler.NashornWidgetScheduler.ScheduleList | src/main/java/io/suricate/monitoring/service/scheduler/NashornWidgetScheduler.java:169-176 | The loop applies `schedule` to each request in order. The new state is `ScheduleList` of the old one with the draws made. |
| WidgetScheduler.NashornWidgetScheduler.CancelProjectScheduling | src/main/java/io/suricate/monitoring/service/scheduler/NashornWidgetScheduler.java:245-249 | The loop cancels each widget of the project in order. The new state is `CancelProject` of the old one. |
| WidgetScheduler.NashornWidgetScheduler.CancelWidgetInstance | src/main/java/io/suricate/monitoring/service/scheduler/NashornWidgetScheduler.java:256-263 | The new state is `CancelWidgetInstance` of the old one, and the invariant is kept. |
| SlideService.UpdatedSlide | src/main/java/io/suricate/monitoring/service/api/ProjectSlideService.java:99-108 | maxColumn and widgetHeight are overwritten only when non-null. cssStyle is overwritten only when non-blank: not null, not empty, and not all whitespace. Every other field is unchanged. With nothing supplied, the slide is unchanged. |
| SlideService.UpdatedSlideIdempotent | src/main/java/io/suricate/monitoring/service/api/ProjectSlideService.java:99-108 | Applying the same update twice equals applying it once. |
| SlideService.UpdatedSlideCompose | src/main/java/io/suricate/monitoring/service/api/ProjectSlideService.java:99-108 | Two updates in a row equal one update in which the second update's supplied values win. |
| SlideService.ScreenshotAsset | src/main/java/io/suricate/monitoring/service/api/ProjectSlideService.java:129-135 | The asset's content, content type and size come from the file. Its id is that of the slide's current screenshot, if the slide has one. |
| SlideService.ProjectSlideService.constructor | src/main/java/io/suricate/monitoring/service/api/ProjectSlideService.java:52-57 | The service starts over the given repository and asset store. |
| SlideService.ProjectSlideService.SaveSlide | src/main/java/io/suricate/monitoring/service/api/ProjectSlideService.java:110 | Saving a slide without an id gives it a fresh id. A slide with an id replaces that row. The assets are unchanged. |
| SlideService.ProjectSlideService.SaveAsset | src/main/java/io/suricate/monitoring/service/api/ProjectSlideService.java:136-138 | Saving an asset without an id gives it a fresh id. An asset with an id replaces that row. The slides are unchanged. |
| SlideService.ProjectSlideService.GetOneById | src/main/java/io/suricate/monitoring/service/api/ProjectSlideService.java:65-71 | Returns the stored slide exactly when the id is in the repository, and nothing otherwise. |
| SlideService.ProjectSlideService.AddSlideToProject | src/main/java/io/suricate/monitoring/service/api/ProjectSlideService.java:82-90 | Stores one new slide under a fresh id. The slide's project, maxColumn, widgetHeight and cssStyle are the arguments; it has no screenshot and no widgets. The assets are unchanged. |
| SlideService.ProjectSlideService.UpdateSlide | src/main/java/io/suricate/monitoring/service/api/ProjectSlideService.java:99-111 | The saved slide is `UpdatedSlide` of the given one, and it replaces that row. Every other slide and every asset is unchanged. |
| SlideService.ProjectSlideService.DeleteSlide | src/main/java/io/suricate/monitoring/service/api/ProjectSlideService.java:118-120 | The id leaves the repository, and every other slide is unchanged. The slide's screenshot asset is removed with it, as the entity's cascade demands. |
| SlideService.ProjectSlideService.AddOrUpdateScreenshot | src/main/java/io/suricate/monitoring/service/api/ProjectSlideService.java:128-142 | If the slide has a screenshot, the asset is saved under that screenshot's id, and the slide and repository are untouched. Otherwise the asset is saved under a fresh id and becomes the slide's screenshot, and the slide is saved. |
| SlideMapper.ToProjectSlideDtoDefault | src/main/java/io/suricate/monitoring/service/mapper/ProjectSlideMapper.java:57-63 | A null slide maps to null. The id and the grid maxColumn, widgetHeight and cssStyle equal the slide's. `screenshotToken` is null exactly when there is no screenshot; otherwise it is `encrypt` of the screenshot id. `librariesToken` is `getLibrariesToken` of the slide's widgets. |
| SlideMapper.MapSlides | src/main/java/io/suricate/monitoring/service/mapper/ProjectSlideMapper.java:75-77 | The result has the same length as the input. Its i-th element is the single-slide mapping of the i-th slide. |
| SlideMapper.ToProjectSlideDtosDefault | src/main/java/io/suricate/monitoring/service/mapper/ProjectSlideMapper.java:75-77 | A null list maps to null. Otherwise the list is mapped element by element, in order. |
| SlideMapper.MapSlidesAppend | src/main/java/io/suricate/monitoring/service/mapper/ProjectSlideMapper.java:75-77 | Mapping a concatenation equals concatenating the mapped lists. |
| UserMapping.FormatArg | src/main/java/io/suricate/monitoring/model/mapper/role/UserMapper.java:56 | `%s` renders a string as itself and null as "null". |
| UserMapping.Fullname | src/main/java/io/suricate/monitoring/model/mapper/role/UserMapper.java:56 | The full name is the rendered first name, one space, then the rendered last name. |
| UserMapping.FullnameSplitsAtFirstSpace | src/main/java/io/suricate/monitoring/model/mapper/role/UserMapper.java:56 | A first name without spaces is recovered from the full name as everything before its first space. |
| UserMapping.ToUserDtoDefault | src/main/java/io/suricate/monitoring/model/mapper/role/UserMapper.java:55-57 | A null user maps to null. The fields are copied. `fullname` is firstname + " " + lastname, with null rendered as "null". |
| UserMapping.MapUsers | src/main/java/io/suricate/monitoring/model/mapper/role/UserMapper.java:69-71 | The result has the same length as the input. Its i-th element is `toUserDtoDefault` of the i-th user. |
| UserMapping.ToUserDtosDefault | src/main/java/io/suricate/monitoring/model/mapper/role/UserMapper.java:69-71 | A null list maps to null. Otherwise the list is mapped element by element, in order. |
| UserMapping.ToNewUser | src/main/java/io/suricate/monitoring/model/mapper/role/UserMapper.java:86-90 | The password is `encode` of the request's password, never the raw value unless `encode` returns it unchanged. The roles are left unset and the id is null. The authentication method is the argument, and the other fields are copied. |
| Carousel.ItemAt | src/main/webapp/app/shared/components/carousel/directives/carousel.directive.ts:76 | Indexing the items gives an item exactly for an index in bounds, and that item is `items[i]`. Otherwise it gives `undefined`. |
| Carousel.NextIndex | src/main/webapp/app/shared/components/carousel/directives/carousel.directive.ts:72-75 | The index goes up by one and wraps to 0 when it reaches the length. It stays in bounds on a non-empty list. |
| Carousel.PrevIndex | src/main/webapp/app/shared/components/carousel/directives/carousel.directive.ts:86-89 | The index goes down by one and wraps to length - 1 when it drops below 0. It stays in bounds on a non-empty list. |
| Carousel.PrevNextInverse | src/main/webapp/app/shared/components/carousel/directives/carousel.directive.ts:69-92 | On a valid index, `prev` after `next` restores the index, and so does `next` after `prev`. |
| Carousel.NextTimesAdd | src/main/webapp/app/shared/components/carousel/directives/carousel.directive.ts:69-78 | Taking `a + b` steps of `next` equals taking `a` steps and then `b` steps. |
| Carousel.NextTimesAdvances | src/main/webapp/app/shared/components/carousel/directives/carousel.directive.ts:69-78 | Before the end of the list is reached, `k` steps of `next` add `k` to the index. |
| Carousel.NextTimesCycle | src/main/webapp/app/shared/components/carousel/directives/carousel.directive.ts:69-78 | `length` steps of `next` return to the starting index. |
| Carousel.CarouselDirective.constructor | src/main/webapp/app/shared/components/carousel/directives/carousel.directive.ts:18 | The index starts at 0 and there is no context yet. |
| Carousel.CarouselDirective.NgOnInit | src/main/webapp/app/shared/components/carousel/directives/carousel.directive.ts:52-60 | The context shows `items[0]` at index 0. The index field is not reset; from a fresh directive the context mirrors it. |
| Carousel.CarouselDirective.Next | src/main/webapp/app/shared/components/carousel/directives/carousel.directive.ts:69-78 | The index becomes `NextIndex` of the old one. `context.index == index` and `context.$implicit == items[index]`. The index bound is preserved. |
| Carousel.CarouselDirective.Prev | src/main/webapp/app/shared/components/carousel/directives/carousel.directive.ts:83-92 | The index becomes `PrevIndex` of the old one. `context.index == index` and `context.$implicit == items[index]`. The index bound is preserved. |

## Left out

- Thread pools, `shutdownNow`, interrupts and timing are not modelled. They are concurrency. Executors are sets of pending handles, and shutting one down abandons its futures. The pool size is a named constant and nothing more.
- The script execution task and the result task are not modelled. Neither is the re-arm the result task performs. Their code is not part of this model.
- SchedulerModel.Schedule: an executable request scheduled before `initScheduler` is excluded by `CanSchedule`. The same holds for `CancelAndSchedule`, `ScheduleList` and the class methods `Schedule`, `CancelAndSchedule` and `ScheduleList`. In the code, such a request first persists RUNNING for a STOPPED snapshot and then throws a `NullPointerException`, because the executors are still null. The widget is then left RUNNING with no job, and inside `scheduleList` the exception aborts the remaining requests. The model does not capture that failure.
- `isNashornRequestExecutable` is an uninterpreted parameter.
- `resetProjectWidgetsState` is modelled as setting every persisted widget state to STOPPED. Its code is not part of this model.
- `updateState` is a map update of the persisted state. The date argument is dropped.
- The `getOne`/`getWidgetVariables` lookup, the `ctx.getBean` calls and the string encryptor are left out. They only feed the foreign task.
- The garbage collector clearing a weak reference is not a step of the model. The registry may still hold a collected (`None`) reference, and `cancel` handles it.
- A request's delay of null is not modelled. The delay is an integer.
- The exception path of `scheduleList` is not modelled. One try block wraps the whole loop, so the model makes no claim that one request's failure is isolated from the others.
- The persistence layer is not modelled, apart from the slide and asset stores as maps:
  - saving an entity that has an id replaces that row;
  - deleting a missing id changes nothing, although some repository versions throw;
  - removal cascades only to the screenshot asset, because widgets are not stored in this model;
  - auditing fields are left out.
- `UpdateSlide`, `AddOrUpdateScreenshot`: the Java code mutates the caller's slide object in place. The model returns the updated slide value instead. Aliasing of entity objects is not modelled.
- `AddOrUpdateScreenshot`: reading the file's bytes (and its `IOException`) is I/O. The file is given as bytes, a content type and a size.
- `IdUtils.encrypt`, `getLibrariesToken` and `passwordEncoder.encode` are function parameters. Their internals are foreign.
- `ToNewUser`: the request's password is non-null in the model, and the null handling the generator emits for two sources is not modelled. The `User`, `UserRequestDto`, `UserResponseDto` and `AuthenticationMethod` classes are not part of this model. Their fields and values here are the ones the mappings name, plus the usual identity and contact fields.
- `IsWhitespace` follows Java 8's `Character.isWhitespace`, which includes U+180E. Later Java versions drop it.
- The carousel's autoplay timer (`setInterval`, `resetTimer`, `ngOnDestroy`) and the embedded-view creation are UI plumbing and are not modelled. The items list is fixed at construction.
- The REST controllers, the Angular HTTP services, the app constants, the input and carousel components and the spec file are HTTP, UI or test scaffolding, and are not modelled.
