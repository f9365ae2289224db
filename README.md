# Portfolio site: browser-storage collection store

This project models the logic of a React portfolio site. Most of it is a
collection store over the browser's `localStorage`, written once per view for
three kinds of record: projects, blog posts and testimonials. Each view loads its
collection from one storage key and seeds defaults when the key is missing or
unusable. It validates what it reads back in its own way. It changes the
collection by prepending a created record, replacing or merging the record with a
given id, or filtering an id out, and then writes the whole list back.

Beside the store the model covers these small pieces of state:

- the page and selection navigation of the application shell;
- the experience carousel's modular index;
- the headline's typewriter state machine;
- the two profile-image slots, each with a fallback and a reset.

The modules follow the source files:

- `Records` holds the record types (`types.ts`, `Testimonials.tsx`) and JavaScript truthiness.
- `Storage` holds the storage keys and what `JSON.parse` makes of a stored text.
- `Collections` holds `filter`, `find`, `map`-replace and `slice`.
- `Text` holds `trim`, `split`, `join` and the tag and feature parsing.
- Each remaining module is one source file: `ProjectData`, `ProjectPage`, `ProjectsSection`, `BlogPage`, `BlogPreview`, `Testimonials`, `App`, `ExperienceSection`, `Hero`, `Images` (About and AboutPreview).

Views are classes whose fields are the component's state. Handlers are methods
with `modifies` frames, and storage is a `LocalStorage` object with one field per
key. A write to storage may be refused by the browser, for example when the quota
is exceeded. Every setter therefore returns whether it went through, and each
handler's contract covers both outcomes.

## Model

| member | source | states |
|---|---|---|
| Collections.Filter | components/ProjectPage.tsx:69 | the kept elements are exactly those of the input that pass, and nothing is dropped when all pass |
| Collections.FilterConcat | components/ProjectPage.tsx:92 | filtering distributes over concatenation, so the survivors keep their order |
| Collections.RemoveId | components/ProjectPage.tsx:69 | after `filter(p => p.id !== id)` every remaining record was in the input, no record has the id, every other record is kept, and a missing id changes nothing |
| Collections.FilterKeepsDistinct | components/Testimonials.tsx:76 | filtering a collection with distinct ids keeps them distinct |
| Collections.RemoveIdKeepsDistinct | components/BlogPage.tsx:161 | deleting by id keeps ids distinct |
| Collections.FindId | components/ProjectPage.tsx:41 | `find` by id returns nothing exactly when no record has the id, else a record with that id from the collection |
| Collections.ReplaceId | components/ProjectPage.tsx:100 | the `map` replace keeps the length and transforms exactly the records with the id, in place |
| Collections.ReplaceMissingIdIsIdentity | components/ProjectPage.tsx:100 | replacing an id no record has changes nothing |
| Collections.ReplaceIdKeepsIds | components/BlogPage.tsx:117 | a replacement that keeps the id keeps the id list and its distinctness |
| Collections.PrependFreshKeepsDistinct | components/ProjectPage.tsx:103 | prepending a record with a fresh id keeps the ids distinct |
| Collections.Take | components/Projects.tsx:15 | `slice(0, n)` is a prefix of length `min(n, length)` |
| Text.LeadingSpace | components/ProjectPage.tsx:92 | counts the maximal run of ECMAScript whitespace at the front |
| Text.TrailingSpace | components/ProjectPage.tsx:92 | counts the maximal run of ECMAScript whitespace at the back |
| Text.Trim | components/ProjectPage.tsx:92 | `trim()` yields a string with no whitespace at either end and no longer than the input |
| Text.TrimIsSlice | components/ProjectPage.tsx:92 | the trimmed string is the slice between the leading and trailing whitespace runs |
| Text.TrimKeepsOut | components/ProjectPage.tsx:92 | trimming introduces no character that was absent |
| Text.TrimPadded | components/ProjectPage.tsx:92 | trimming whitespace padding off a trimmed string gives it back |
| Text.Split | components/ProjectPage.tsx:92 | `split(c)` yields at least one piece, no piece contains `c`, and joining the pieces with `c` gives the input |
| Text.SplitJoin | components/ProjectPage.tsx:92 | splitting a join of separator-free pieces gives the pieces |
| Text.SplitNoSeparator | components/ProjectPage.tsx:92 | a string without the separator splits into itself |
| Text.ParseList | components/ProjectPage.tsx:92-93 | every parsed item is non-empty, trimmed and free of the separator, and there are no more items than pieces |
| Text.ParseListKeeps | components/ProjectPage.tsx:92-93 | every piece whose trim is not empty appears among the items |
| Text.ParseListCons | components/ProjectPage.tsx:92-93 | the items of the text before the first separator come before those of the rest, so order is kept |
| Text.ParseJoinRoundTrip | components/ProjectPage.tsx:60-93 | parsing a join with separator and whitespace padding returns well-formed items unchanged |
| Text.TagsRoundTrip | components/ProjectPage.tsx:60-92 | parsing `tags.join(', ')` gives back `tags` when each tag is non-empty, trimmed and comma-free |
| Text.FeaturesRoundTrip | components/ProjectPage.tsx:61-93 | parsing `features.join('\n')` gives back the features under the same conditions |
| ProjectData.DefaultProjectsIds | projectData.ts:3-72 | the seed has 4 projects with ids "1" to "4", pairwise distinct |
| ProjectData.ProjectsLoadWith | projectData.ts:75-93 | for a fallback seed: an array, `[]` included, is returned with no write; a missing key or a non-array returns and writes the seed; a parse error returns the seed and writes nothing; it never throws (`ProjectsLoad` is this load with `DEFAULT_PROJECTS`) |
| ProjectData.ProjectsLoadIdempotent | projectData.ts:75-93 | for any seed, loading after the load's own write returns the same projects and writes nothing |
| ProjectData.SaveThenLoad | projectData.ts:75-98 | a list written by `saveProjects` is what the next load returns, with no write |
| ProjectData.GetAllProjects | projectData.ts:75-93 | returns `ProjectsLoad` of the stored value; the key keeps its value or holds the load's write, and a refused write is swallowed |
| ProjectData.SaveProjects | projectData.ts:95-102 | a saved list is stored exactly; a refused write is caught and leaves the key unchanged |
| ProjectData.LoadTwice | projectData.ts:75-93 | two consecutive loads return equal collections |
| ProjectData.SaveThenGet | projectData.ts:75-102 | save followed by load returns the saved list when the write succeeded |
| ProjectPage.DraftOf | components/ProjectPage.tsx:59 | editing starts from a draft carrying the project's id |
| ProjectPage.Processed | components/ProjectPage.tsx:83-94 | sets each field of the saved record from the draft or its default ('Untitled Project', '', 'https://picsum.photos/1200/800', the fresh id); links are kept; tags and features are parsed; title and image are never empty |
| ProjectPage.CreatePrepends | components/ProjectPage.tsx:101-104 | saving without an id gives `[new] + old`, one longer |
| ProjectPage.EditReplaces | components/ProjectPage.tsx:98-100 | saving with an id replaces each record with that id by the whole new record, in place, keeps every other record and the length, and a missing id changes nothing |
| ProjectPage.SaveKeepsDistinct | components/ProjectPage.tsx:83-104 | saving keeps ids distinct when a created record's `Date.now()` id is fresh |
| ProjectPage.EditSaveRoundTrip | components/ProjectPage.tsx:57-94 | opening a well-formed project in the form and saving it unchanged gives back the same record |
| ProjectPage.ProjectPageView.constructor | components/ProjectPage.tsx:13-32 | the initial state: list view, no projects, no current project, blank draft and inputs |
| ProjectPage.ProjectPageView.Mount | components/ProjectPage.tsx:35-53 | loads through `getAllProjects` and shows what `Shown` says for the prop |
| ProjectPage.ProjectPageView.Show | components/ProjectPage.tsx:37-50 | a truthy id found in the collection opens the detail view on the first match; a null, empty or unknown id gives the list view |
| ProjectPage.ProjectPageView.Open | components/ProjectPage.tsx:250-254 | a card click opens the detail view on that project |
| ProjectPage.ProjectPageView.BackToList | components/ProjectPage.tsx:137 | the back and cancel buttons show the list |
| ProjectPage.ProjectPageView.CreateNew | components/ProjectPage.tsx:114-127 | the form opens on a blank draft with empty inputs |
| ProjectPage.ProjectPageView.Edit | components/ProjectPage.tsx:57-64 | the form opens on the project, with tags joined by ", " and features one per line |
| ProjectPage.ProjectPageView.Delete | components/ProjectPage.tsx:66-78 | a declined delete changes nothing; a confirmed one filters the id, writes the rest (refusal swallowed), and leaves the detail view only when it showed that project |
| ProjectPage.ProjectPageView.Save | components/ProjectPage.tsx:80-112 | the collection becomes the create or replace result and is saved; the detail view opens on the new record |
| ProjectsSection.Body | components/Projects.tsx:58-140 | the empty state is rendered exactly when there is nothing to display, else a grid of the displayed projects |
| ProjectsSection.Chips | components/Projects.tsx:87-96 | the first three tags are shown; a `+k` badge with `k = length - 3` appears only beyond three, so every tag is shown or counted |
| ProjectsSection.FeaturedProjects.constructor | components/Projects.tsx:11 | nothing is displayed before the first load |
| ProjectsSection.FeaturedProjects.LoadProjects | components/Projects.tsx:13-16 | displays the first `min(3, n)` loaded projects |
| ProjectsSection.FeaturedProjects.HandleDelete | components/Projects.tsx:22-30 | re-reads storage, filters the id, saves and reloads; after a saved delete the id is neither stored nor displayed; after a refused save the key keeps its value or holds the seed the loads wrote; a declined delete changes nothing |
| ProjectsSection.TakeIsPrefix | components/Projects.tsx:15 | every displayed project is in the collection |
| App.Selection | App.tsx:37 | `id \|\| null` selects the id exactly when it is non-empty, so the empty id of "Manage Projects" (components/Projects.tsx:42) selects nothing |
| App.Bodies | App.tsx:68-95 | exactly one body is rendered for each of the four pages and none for any other value; the project page gets the selection |
| App.AppShell.constructor | App.tsx:19-21 | dark theme, page "home", no selected project |
| App.AppShell.ToggleTheme | App.tsx:31 | the theme flag flips |
| App.AppShell.ToggleTwice | App.tsx:31 | toggling twice restores the theme |
| App.AppShell.HandleNavigate | App.tsx:33-61 | every navigation sets the page; "project-details" sets the selection to the id or to none; any other page keeps the selection |
| App.AppShell.Rendered | App.tsx:68-95 | a single body is rendered exactly when the current page is known |
| App.AppShell.OpenProject | App.tsx:74 | a card click renders only the project page, for that id when it is not empty |
| App.AppShell.BackFromProjects | App.tsx:92 | the project page's back button renders only the home page and keeps the selection |
| BlogPage.DefaultPostsIds | components/BlogPage.tsx:9-55 | the seed has 3 posts with ids "1" to "3", pairwise distinct |
| BlogPage.DefaultPostsFilled | components/BlogPage.tsx:9-55 | every seed post has a non-empty title and content |
| BlogPage.PostsLoadWith | components/BlogPage.tsx:72-102 | for a fallback seed (`PostsLoad` uses `DEFAULT_POSTS`): an empty array, or one whose first post has a truthy title, is used unchanged with no write; anything else (missing, parse error, non-array, falsy first title) writes and shows the seed |
| BlogPage.PostsLoadIdempotent | components/BlogPage.tsx:72-102 | for a seed that passes the load's own title check, loading after the load's own write shows the same posts and writes nothing |
| BlogPage.Merge | components/BlogPage.tsx:117 | in `{...p, ...newPost}` each field the draft has wins and each it lacks comes from the post |
| BlogPage.MergeLaws | components/BlogPage.tsx:117 | merging a post's own draft gives that post; merging an empty draft changes nothing |
| BlogPage.NewPost | components/BlogPage.tsx:120-130 | a created post takes the fresh id and the date; its title, category and image default to 'Untitled', 'General' and the fixed image URL; its author is 'Muluken Ugamo' and its reading time '3 min read' |
| BlogPage.CreatePrependsPost | components/BlogPage.tsx:118-131 | a save that is not an update prepends the new post, one longer |
| BlogPage.UpdateMerges | components/BlogPage.tsx:115-117 | an update merges into exactly the matching posts in place, keeps length and ids, and a missing id changes nothing |
| BlogPage.SavedPostsKeepDistinct | components/BlogPage.tsx:113-132 | saving keeps post ids distinct given a fresh id |
| BlogPage.DetailBody | components/BlogPage.tsx:366 | the detail view shows the content, or the excerpt when the content is empty |
| BlogPage.BlogPageView.constructor | components/BlogPage.tsx:58-70 | list view, no selection, no posts, not editing, empty draft |
| BlogPage.BlogPageView.Mount | components/BlogPage.tsx:72-102 | shows what `PostsLoad` shows and stores its write when there is one |
| BlogPage.BlogPageView.ReadPost | components/BlogPage.tsx:104-108 | the detail view on the post |
| BlogPage.BlogPageView.StartNewPost | components/BlogPage.tsx:205-208 | the composer on an empty draft, creating |
| BlogPage.BlogPageView.EditClick | components/BlogPage.tsx:144-151 | the composer on the post, editing |
| BlogPage.BlogPageView.CancelCreate | components/BlogPage.tsx:177-181 | the draft is reset and the list shown |
| BlogPage.BlogPageView.BackToList | components/BlogPage.tsx:309 | the detail view's back button shows the list |
| BlogPage.BlogPageView.SavePost | components/BlogPage.tsx:110-142 | when the write goes through, the shown list is the saved list and is stored exactly; when it is refused, posts and storage are unchanged; the draft is reset and the list shown either way |
| BlogPage.BlogPageView.DeleteClick | components/BlogPage.tsx:153-175 | a confirmed delete filters the id and stores exactly the shown list; the detail view of that post closes and the selection clears; a declined delete changes nothing |
| BlogPreview.PreviewSeedIsBlogSeed | components/BlogPreview.tsx:13-59 | the preview's seed equals the blog page's seed, post for post |
| BlogPreview.PreviewLoadWith | components/BlogPreview.tsx:61-76 | for a fallback seed (`PreviewLoad` uses `PREVIEW_DEFAULT_POSTS`): corrupt text, an object, number, boolean or `null`, and the empty JSON string throw; a missing key, a non-empty JSON string, or a non-empty list whose first post has falsy content, shows and writes the seed; otherwise the first three posts are shown and nothing is written |
| BlogPreview.PreviewIsPrefix | components/BlogPreview.tsx:61-71 | when the load does not throw, at most three posts are shown when the seed has at most three, and without a reseed they are a prefix of the stored list |
| BlogPreview.PreviewLoadIdempotent | components/BlogPreview.tsx:61-76 | for a seed of at most three posts whose first has content, loading again after the preview's write shows the same posts and writes nothing |
| BlogPreview.EmptyContentPostIsOverwritten | components/BlogPreview.tsx:65-68 | a stored list whose first post has a title but empty content (one written by an earlier version of the site, say) is kept by the blog page's load, but the next preview load writes the seed over the whole list, after which the blog page shows the seed without that post |
| BlogPreview.SiteLosesEmptyContentPost | components/BlogPreview.tsx:65-68 | the same with the site's own seeds: after the preview loads such a list, the blog page shows `DEFAULT_POSTS` and the post is gone |
| BlogPreview.BlogPreviewSection.constructor | components/BlogPreview.tsx:10 | nothing is shown before the first load |
| BlogPreview.BlogPreviewSection.Mount | components/BlogPreview.tsx:61-77 | throws exactly when `PreviewLoad` does; otherwise shows its posts and stores its write |
| Testimonials.DefaultTestimonialsIds | components/Testimonials.tsx:13-38 | the seed has 3 testimonials with ids "1" to "3", pairwise distinct |
| Testimonials.TestimonialsLoad | components/Testimonials.tsx:47-55 | a missing key shows and writes the seed; an array, `[]` included, is used as parsed; anything else throws |
| Testimonials.TestimonialsLoadIdempotent | components/Testimonials.tsx:47-55 | loading after the load's own write shows the same list and writes nothing |
| Testimonials.NewTestimonial | components/Testimonials.tsx:59-66 | the name defaults to 'Anonymous' and the role to 'Client'; company and text are kept; the avatar is the dicebear prefix plus the raw entered name |
| Testimonials.AddKeepsDistinct | components/Testimonials.tsx:59-67 | adding with a fresh id keeps the ids distinct |
| Testimonials.TestimonialsSection.constructor | components/Testimonials.tsx:41-45 | no testimonials, form closed, empty draft |
| Testimonials.TestimonialsSection.Mount | components/Testimonials.tsx:47-55 | throws exactly when `TestimonialsLoad` does; otherwise shows its list and stores its write |
| Testimonials.TestimonialsSection.ToggleAdding | components/Testimonials.tsx:95 | the form flag flips |
| Testimonials.TestimonialsSection.CancelAdding | components/Testimonials.tsx:112 | the form closes |
| Testimonials.TestimonialsSection.HandleAdd | components/Testimonials.tsx:57-72 | the new record is prepended, one longer; a successful write stores exactly that list and resets the form; a refused write escapes, leaving storage and the form as they were |
| Testimonials.TestimonialsSection.HandleDelete | components/Testimonials.tsx:74-80 | a confirmed delete filters the id and stores exactly the new list; a declined one changes nothing |
| ExperienceSection.ExperiencesCount | components/Experience.tsx:5-30 | there are three experiences |
| ExperienceSection.NextIndex | components/Experience.tsx:35-37 | `next` stays in range, adds one, and wraps from the last index to 0 |
| ExperienceSection.PrevIndex | components/Experience.tsx:39-41 | `prev` stays in range, subtracts one, and wraps from 0 to the last index |
| ExperienceSection.PrevNextInverse | components/Experience.tsx:35-41 | `prev` undoes `next` and `next` undoes `prev` |
| ExperienceSection.Forward | components/Experience.tsx:35-37 | `k` presses of next stay in range |
| ExperienceSection.ForwardNoWrap | components/Experience.tsx:35-37 | short of the end, `k` presses add `k` |
| ExperienceSection.ForwardCompose | components/Experience.tsx:35-37 | `a` presses then `b` presses equal `a + b` presses |
| ExperienceSection.ForwardFullCircle | components/Experience.tsx:35-37 | `n` presses of next return to the starting index |
| ExperienceSection.Run | components/Experience.tsx:33-41 | any sequence of next and prev presses keeps the index in range |
| ExperienceSection.ExperienceCarousel.constructor | components/Experience.tsx:33 | the index starts at 0 |
| ExperienceSection.ExperienceCarousel.Next | components/Experience.tsx:35-37 | the index becomes `NextIndex` of the old one and stays valid |
| ExperienceSection.ExperienceCarousel.Prev | components/Experience.tsx:39-41 | the index becomes `PrevIndex` of the old one and stays valid |
| ExperienceSection.ExperienceCarousel.CurrentExp | components/Experience.tsx:43 | the current experience is always an element of the list, at the index |
| Hero.Clamp | components/Hero.tsx:18-20 | `substring` clamps its bounds into `[0, length]` and leaves bounds already inside unchanged |
| Hero.Substring | components/Hero.tsx:18-20 | `substring` with in-range bounds is the slice between them, in either order |
| Hero.Step | components/Hero.tsx:14-45 | typing at the full text starts deleting with the text unchanged; deleting at "" starts typing; a prefix of the full text stays one; elsewhere one character is typed or deleted |
| Hero.Delay | components/Hero.tsx:25-32 | 2000 ms at the full text while typing, 500 ms at "" while deleting, otherwise 100 ms typing and 50 ms deleting |
| Hero.RunKeepsPrefix | components/Hero.tsx:12-45 | after any number of steps the text is a prefix of the full text |
| Hero.TypeOut | components/Hero.tsx:17-21 | typing from `k` characters reaches the full text in `len - k` steps of 100 ms |
| Hero.DeleteAll | components/Hero.tsx:17-21 | deleting from `k` characters reaches "" in `k` steps of 50 ms |
| Hero.RunCompose | components/Hero.tsx:14-45 | `a` steps then `b` steps equal `a + b` steps |
| Hero.ElapsedCompose | components/Hero.tsx:14-45 | the time of `a + b` steps is the sum of the two parts |
| Hero.RunThrough | components/Hero.tsx:14-45 | two runs with known end states chain |
| Hero.ElapsedThrough | components/Hero.tsx:14-45 | two runs with known durations chain |
| Hero.TypePhase | components/Hero.tsx:17-32 | typing the whole text from "" takes `len` steps of 100 ms |
| Hero.DeletePhase | components/Hero.tsx:17-32 | deleting the whole text takes `len` steps of 50 ms |
| Hero.ToDeleting | components/Hero.tsx:14-45 | after typing and the 2000 ms pause the text is full and deleting |
| Hero.ToErased | components/Hero.tsx:14-45 | after typing, the pause and deleting, the text is "" while deleting |
| Hero.Cycle | components/Hero.tsx:14-45 | from the initial state `2 * len + 2` steps return to the initial state, taking `150 * len + 2500` ms |
| Hero.HeadlineCycle | components/Hero.tsx:12-45 | for the site's headline a cycle is 76 steps and 8050 ms |
| Hero.Headline.constructor | components/Hero.tsx:10-11 | the empty text, typing |
| Hero.Headline.Tick | components/Hero.tsx:14-45 | one timer round waits `Delay` of the state, takes one `Step`, and keeps the text a prefix of the full text |
| Images.Mounted | components/About.tsx:17-23 | a non-empty saved image replaces the shown one; otherwise the shown one stays (with the `Upload` and `ResetImage` contracts this gives: a saved upload is what a later `Mount` shows, and after a reset a later `Mount` keeps the default) |
| Images.OnError | components/About.tsx:25-30 | the handler updates exactly when the shown image is not the fallback, and the fallback is shown afterwards |
| Images.ErrorSettles | components/AboutPreview.tsx:25-30 | after one error a second error makes no update, so the handler cannot loop |
| Images.AboutView.constructor | components/About.tsx:14 | the default profile image is shown |
| Images.AboutView.Mount | components/About.tsx:17-23 | shows `Mounted` of the saved profile image |
| Images.AboutView.HandleProfileError | components/About.tsx:25-30 | the fallback is shown, and an already shown fallback is not set again |
| Images.AboutView.Upload | components/About.tsx:71-77 | the upload is shown first; a saved one is stored; a refused save is caught (the alert) and the key keeps its value |
| Images.AboutView.ResetImage | components/About.tsx:85-90 | the default is shown, the profile key removed and the preview key untouched |
| Images.AboutPreviewView.constructor | components/AboutPreview.tsx:14 | the default preview image is shown |
| Images.AboutPreviewView.Mount | components/AboutPreview.tsx:17-23 | shows `Mounted` of the saved preview image |
| Images.AboutPreviewView.HandleImgError | components/AboutPreview.tsx:25-30 | the fallback is shown, and an already shown fallback is not set again |
| Images.AboutPreviewView.Upload | components/AboutPreview.tsx:36-40 | the upload is shown and then written without a guard; a refused write throws after the image is shown and the key keeps its value |
| Images.AboutPreviewView.ResetImage | components/AboutPreview.tsx:45-50 | the default is shown, the preview key removed and the About page's key untouched |

## Left out

- JSON text is not modelled. A stored value is described by what `JSON.parse` makes of it: an error, a string, another non-array value (object, number, boolean, `null`), or an array of records. Array elements are assumed to be well-formed records of the expected kind; a malformed element is not modelled.
- Storage is one field per key the site uses. This equals a key-to-value map restricted to these five keys. Other keys and `localStorage.clear` are not modelled.
- `Date.now()` ids and `toLocaleDateString` dates are parameters (`freshId`, `today`). The source does not ensure that ids are unique. The distinctness lemmas therefore require a fresh id, while the operations themselves accept any id.
- `window.confirm` is a boolean parameter. `alert` and `console.error` are not modelled. A caught failure appears only as a `saved` result of false.
- A write error that the source does not catch is not modelled as an exception. This covers `BlogPage`, `BlogPreview`, `Testimonials` and `AboutPreview`. The model returns `false`, and the contract states the state left behind.
- BlogPage.BlogPageView.SavePost: a refused write throws inside React's state updater. That throw, and what React then does with it (running the updater again at render, unmounting the tree without an error boundary), is not modelled. The model keeps the old posts, and the draft reset and the view change happen anyway.
- BlogPage.BlogPageView.DeleteClick: as for SavePost, the throw of a refused write inside the updater is not modelled, and the model keeps the old posts. The detail view still closes, because the source closes it outside the updater.
- BlogPreview.PreviewLoadWith: every stored object is modelled as throwing at `slice`. An object with a positive numeric `length` and no truthy `content` under key `0` would instead take the reseed branch. `Parsed` does not record an object's properties, so the model cannot distinguish such objects from the others. The empty JSON string is `Threw` because the render's `posts.map` throws on it, not the load itself.
- Testimonials.TestimonialsLoad: a stored non-array is modelled as throwing, because the list is rendered with `map`.
- Scrolling (`scrollTo`, `scrollIntoView`) and the `setTimeout` in `App.tsx` are not modelled. Their only effect is on the viewport.
- The theme's `document.documentElement.classList` effect is not modelled.
- Form typing (`onChange` handlers) is not modelled. A draft is a value the handlers read.
- HTML `required` validation is not modelled, so the handlers accept any draft. The browser blocks submitting an empty value in the blog form's title, excerpt and content (components/BlogPage.tsx:407, 447, 459), the project form's title and description (components/ProjectPage.tsx:154, 158), and the testimonial form's name, role and text (components/Testimonials.tsx:107-110). So the 'Untitled', 'Untitled Project', 'Anonymous' and 'Client' defaults cannot be reached from the forms, and a post saved through the form always has content. A whitespace-only value passes `required` and is kept as it is.
- The project form draft's `tags` and `features` arrays are not modelled, because saving never reads them: it parses the two text inputs instead.
- All JSX markup, `TechStack`, `Footer` and `Navbar` are not modelled. They are presentation only.
- The CV generator in `Hero.tsx` (jsPDF) is not modelled. It calls a foreign library.
- Image reading and resizing (FileReader, canvas, JPEG compression) are not modelled. They are I/O and floating point. An upload is the data URL they produce.
- `Contact` (EmailJS), `AIChat` and the Gemini service are not modelled. They are network calls.
- `StarBackground` is not modelled. It uses randomness and floating point.
- `vite.config.ts` is not modelled. It is build configuration.
- Consistency across views and tabs is not modelled. Each view re-reads storage, and the last write wins.
- Hero.Step: the source's timer callback reads `isDeleting` and `text` from the render that scheduled it. Calling one step per render with the current state models exactly that. Overlapping timers are not modelled, because the effect clears its timer on every change.
