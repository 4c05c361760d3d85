/**
 * The tiled-gallery editor component (tiled-gallery/edit.jsx) as an object:
 * its `selectedImage` and `captionSelected` state, the `isSelected` prop,
 * and the block attributes as the host stores them after each
 * `setAttributes` patch.  The host applies patches synchronously here.
 */
module GalleryEdit {
  import opened Js
  import opened GalleryAttributes

  class TiledGalleryEdit {
    var attributes: Attributes
    var isSelected: bool
    var selectedImage: Option<int>      // `null` until an image is clicked
    var captionSelected: Option<bool>   // absent from the initial state

    constructor (attributes: Attributes, isSelected: bool)
      ensures this.attributes == attributes && this.isSelected == isSelected
      ensures selectedImage == None && captionSelected == None
    {
      this.attributes := attributes;
      this.isSelected := isSelected;
      selectedImage := None;
      captionSelected := None;
    }

    /** Whether the image at `index` is drawn as selected: the block is selected and the index is the cursor. */
    predicate ImageIsSelected(index: int)
      reads this
    {
      isSelected && selectedImage == Some(index)
    }

    /** At most one image is drawn as selected at a time. */
    lemma AtMostOneImageSelected(i: int, j: int)
      requires ImageIsSelected(i) && ImageIsSelected(j)
      ensures i == j
    {
    }

    /** Clicking an image moves the cursor to it (a state update only when it differs). */
    method OnSelectImage(index: int)
      modifies this
      ensures selectedImage == Some(index)
      ensures attributes == old(attributes) && isSelected == old(isSelected)
      ensures captionSelected == old(captionSelected)
      ensures isSelected ==> ImageIsSelected(index)
    {
      if selectedImage != Some(index) {
        selectedImage := Some(index);
      }
    }

    /** Removing an image: the list loses that position, columns are re-clamped, the cursor is cleared. */
    method OnRemoveImage(index: int)
      modifies this
      ensures attributes == RemoveImage(old(attributes), index)
      ensures selectedImage == None
      ensures isSelected == old(isSelected) && captionSelected == old(captionSelected)
      ensures forall i :: !ImageIsSelected(i)
    {
      selectedImage := None;
      attributes := RemoveImage(attributes, index);
    }

    /** Images chosen in the media library replace the list, each cut down to the five stored fields. */
    method OnSelectImages(images: seq<Image>)
      modifies this
      ensures attributes == old(attributes).(images := PickImages(images))
      ensures selectedImage == old(selectedImage) && isSelected == old(isSelected)
      ensures captionSelected == old(captionSelected)
    {
      attributes := attributes.(images := PickImages(images));
    }

    method SetLayout(value: string)
      modifies this
      ensures attributes == old(attributes).(layout := Some(value))
      ensures selectedImage == old(selectedImage) && isSelected == old(isSelected)
      ensures captionSelected == old(captionSelected)
    {
      attributes := attributes.(layout := Some(value));
    }

    method SetLinkTo(value: string)
      modifies this
      ensures attributes == old(attributes).(linkTo := Some(value))
      ensures selectedImage == old(selectedImage) && isSelected == old(isSelected)
      ensures captionSelected == old(captionSelected)
    {
      attributes := attributes.(linkTo := Some(value));
    }

    method SetColumnsNumber(value: int)
      modifies this
      ensures attributes == old(attributes).(columns := Some(value))
      ensures selectedImage == old(selectedImage) && isSelected == old(isSelected)
      ensures captionSelected == old(captionSelected)
    {
      attributes := attributes.(columns := Some(value));
    }

    method ToggleImageCrop()
      modifies this
      ensures attributes == ToggleCrop(old(attributes))
      ensures selectedImage == old(selectedImage) && isSelected == old(isSelected)
      ensures captionSelected == old(captionSelected)
    {
      attributes := ToggleCrop(attributes);
    }

    /** A caption or other edit from the image at `index`, merged into that image only. */
    method SetImageAttributes(index: int, patch: Image)
      modifies this
      ensures attributes == old(attributes).(images := MergeAt(old(attributes.images), index, patch))
      ensures !(0 <= index < |old(attributes.images)|) ==> attributes == old(attributes)
      ensures selectedImage == old(selectedImage) && isSelected == old(isSelected)
      ensures captionSelected == old(captionSelected)
    {
      if !(0 <= index < |attributes.images|) {
        return;
      }
      attributes := attributes.(images := MergeAt(attributes.images, index, patch));
    }

    /**
     * The upload callback of `addFiles`: the uploaded images are appended to
     * the images the attributes hold when the callback runs.
     */
    method AddFiles(uploaded: seq<Image>)
      modifies this
      ensures attributes == old(attributes).(images := AppendUploaded(Some(old(attributes.images)), uploaded))
      ensures selectedImage == old(selectedImage) && isSelected == old(isSelected)
      ensures captionSelected == old(captionSelected)
    {
      attributes := attributes.(images := AppendUploaded(Some(attributes.images), uploaded));
    }

    /**
     * A new `isSelected` prop followed by `componentDidUpdate`: deselecting
     * the block clears the image cursor and the caption flag.
     */
    method SetBlockSelected(selected: bool)
      modifies this
      ensures isSelected == selected && attributes == old(attributes)
      ensures !selected && old(isSelected) ==> selectedImage == None && captionSelected == Some(false)
      ensures !(!selected && old(isSelected)) ==>
        selectedImage == old(selectedImage) && captionSelected == old(captionSelected)
      ensures !selected ==> forall i :: !ImageIsSelected(i)
    {
      var wasSelected := isSelected;
      isSelected := selected;
      if !isSelected && wasSelected {
        selectedImage := None;
        captionSelected := Some(false);
      }
    }
  }
}
