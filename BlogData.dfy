/**
 * The three published posts (data/blogPosts.ts). Identifiers, titles,
 * excerpts, dates, reading times and tags are as published; each body is cut
 * down to its leading empty line, its first heading and the indented closing
 * line of the template literal.
 */
module BlogData {
  import opened Types

  const ReactPost := BlogPost(
    "1",
    "Optimizing React for Low-End Devices: What No One Tells You",
    "How I stopped React from choking on animations by ditching state and letting the GPU do real work.",
    "Oct 24, 2024",
    "9 min read",
    ["React", "Performance", "Animation"],
    "\n# Why React Struggles on Cheap Hardware\n    ")

  const NeovimPost := BlogPost(
    "2",
    "Why I Switched from VS Code to Neovim (and Never Looked Back)",
    "VS Code slowed me down. Neovim punched me in the face and made me faster. Here's how Lua, motions, and terminal workflows rewired my brain.",
    "Nov 02, 2024",
    "11 min read",
    ["Linux", "Neovim", "Productivity"],
    "\n# VS Code Was Comfortable — Too Comfortable\n    ")

  const PiPost := BlogPost(
    "4",
    "How I Turned a Raspberry Pi Into a Full Dev Machine (And Why It Shocked Me)",
    "I tried using a Raspberry Pi as a real development workstation. Spoiler: it handled way more than I expected.",
    "Dec 01, 2024",
    "10 min read",
    ["Raspberry Pi", "Linux", "ARM", "Hardware"],
    "\n# Why Even Try This?\n    ")

  /** `BLOG_POSTS`, in publication order. */
  const BlogPosts: seq<BlogPost> := [ReactPost, NeovimPost, PiPost]
}
