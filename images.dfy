/**
 * components/About.tsx and components/AboutPreview.tsx: two single-image slots.
 * Each shows a default picture, takes a saved upload from storage when there is
 * one, falls back to a second picture when the shown one fails to load, and can
 * be reset to the default. Reading the uploaded file and resizing it are not
 * modelled: an upload is the data URL the reader produced.
 */
module Images {
  import opened Wrappers
  import opened Records
  import opened Storage

  const DEFAULT_PROFILE_IMG := "https://api.dicebear.com/9.x/lorelei/svg?seed=Muluken&backgroundColor=b6e3f4&hair=variant04&eyes=variant04"
  const FALLBACK_PROFILE_IMG := "https://api.dicebear.com/9.x/lorelei/svg?seed=Felix&backgroundColor=ffdfbf"

  const DEFAULT_IMAGE := "https://img.freepik.com/premium-photo/anime-boy-is-coding_1040322-5696.jpg?w=2000"
  const FALLBACK_IMAGE := "https://cdn.impossibleimages.ai/wp-content/uploads/2023/07/20123614/Vg0p8SqN6LTWbvr5WD6eddkmhSXOyBKumvhm6B5qWfQFrLPOFs-600x901.jpg"

  /**
   * The mount effect of a slot: a saved image that is present and not empty
   * replaces the shown one; otherwise the shown one stays. So an upload that was
   * saved is what a later mount shows, and after a reset, which removes the key,
   * a later mount keeps the default.
   */
  function Mounted(saved: Option<string>, shown: string): (img: string)
    ensures TruthyOpt(saved) ==> img == saved.value
    ensures !TruthyOpt(saved) ==> img == shown
  {
    if TruthyOpt(saved) then saved.value else shown
  }

  /**
   * The `onError` handler of a slot: the state update it makes, if any. It sets
   * the fallback unless the fallback is already shown, so it updates exactly when
   * the shown image is not the fallback, and what is shown afterwards is always
   * the fallback.
   */
  function OnError(shown: string, fallback: string): (update: Option<string>)
    ensures update.Some? <==> shown != fallback
    ensures update.GetOr(shown) == fallback
  {
    if shown != fallback then Some(fallback) else None
  }

  /**
   * The error handler cannot loop: once it has run, a second failure (of the
   * fallback itself) makes no state update, so nothing re-renders.
   */
  lemma ErrorSettles(shown: string, fallback: string)
    ensures var after := OnError(shown, fallback).GetOr(shown);
      after == fallback && OnError(after, fallback) == None
  {
  }

  /** The profile picture on the About page, stored under `about_profile_image`. */
  class AboutView {
    var profileImg: string

    constructor ()
      ensures profileImg == DEFAULT_PROFILE_IMG
    {
      profileImg := DEFAULT_PROFILE_IMG;
    }

    /** The mount effect: it reads the slot's key and changes no storage. */
    method Mount(ls: LocalStorage)
      modifies this
      ensures profileImg == Mounted(ls.profileImage, old(profileImg))
    {
      profileImg := Mounted(ls.profileImage, profileImg);
    }

    /** `handleProfileError`. */
    method HandleProfileError()
      modifies this
      ensures profileImg == FALLBACK_PROFILE_IMG
      ensures old(profileImg) == FALLBACK_PROFILE_IMG ==> profileImg == old(profileImg)
    {
      var update := OnError(profileImg, FALLBACK_PROFILE_IMG);
      if update.Some? {
        profileImg := update.value;
      }
    }

    /**
     * The end of `handleImageUpload`, once the picture is compressed to `dataUrl`:
     * it is shown first, then saved. A refused save is caught (the user is told
     * with an alert, which is `saved` being false): the picture stays shown for the
     * session and the key keeps its old value.
     */
    method Upload(ls: LocalStorage, dataUrl: string) returns (saved: bool)
      modifies this, ls`profileImage
      ensures profileImg == dataUrl
      ensures saved ==> ls.profileImage == Some(dataUrl)
      ensures !saved ==> ls.profileImage == old(ls.profileImage)
    {
      profileImg := dataUrl;
      saved := ls.SetProfileImage(dataUrl);
    }

    /** `handleResetImage`: the default is shown and the key removed; the preview's key is untouched. */
    method ResetImage(ls: LocalStorage)
      modifies this, ls`profileImage
      ensures profileImg == DEFAULT_PROFILE_IMG && ls.profileImage == None
      ensures ls.previewImage == old(ls.previewImage)
    {
      profileImg := DEFAULT_PROFILE_IMG;
      ls.RemoveProfileImage();
    }
  }

  /** The picture in the home page's About preview, stored under `about_preview_image`. */
  class AboutPreviewView {
    var imgSrc: string

    constructor ()
      ensures imgSrc == DEFAULT_IMAGE
    {
      imgSrc := DEFAULT_IMAGE;
    }

    /** The mount effect: it reads the slot's key and changes no storage. */
    method Mount(ls: LocalStorage)
      modifies this
      ensures imgSrc == Mounted(ls.previewImage, old(imgSrc))
    {
      imgSrc := Mounted(ls.previewImage, imgSrc);
    }

    /** `handleImgError`. */
    method HandleImgError()
      modifies this
      ensures imgSrc == FALLBACK_IMAGE
      ensures old(imgSrc) == FALLBACK_IMAGE ==> imgSrc == old(imgSrc)
    {
      var update := OnError(imgSrc, FALLBACK_IMAGE);
      if update.Some? {
        imgSrc := update.value;
      }
    }

    /**
     * The reader's `onloadend`: the data URL is shown, then written. The write is
     * not guarded: when the browser refuses it, the handler throws (`written` is
     * false) after the picture is already shown, and the key keeps its old value.
     */
    method Upload(ls: LocalStorage, dataUrl: string) returns (written: bool)
      modifies this, ls`previewImage
      ensures imgSrc == dataUrl
      ensures written ==> ls.previewImage == Some(dataUrl)
      ensures !written ==> ls.previewImage == old(ls.previewImage)
    {
      imgSrc := dataUrl;
      written := ls.SetPreviewImage(dataUrl);
    }

    /** `handleResetImage`: the default is shown and the key removed; the About page's key is untouched. */
    method ResetImage(ls: LocalStorage)
      modifies this, ls`previewImage
      ensures imgSrc == DEFAULT_IMAGE && ls.previewImage == None
      ensures ls.profileImage == old(ls.profileImage)
    {
      imgSrc := DEFAULT_IMAGE;
      ls.RemovePreviewImage();
    }
  }
}
